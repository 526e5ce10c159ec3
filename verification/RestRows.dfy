/** What completed REST traversals have stored, in terms of the listed items' own fields. */
module RestRows {
  import opened Wrappers
  import opened RawEvents
  import opened BackfillStorage
  import opened BackfillProgress
  import opened BackfillRuns
  import opened PageHistory
  import opened RestListing
  import opened RestProgress

  /** A listed run of the half-open window with this identity. */
  ghost predicate IsWindowRun(cfg: Config, listing: RestListing, i: int, id: int, attempt: int, updatedAt: int) {
    && 0 <= i < |listing.workflowRuns|
    && listing.workflowRuns[i].id == id && listing.workflowRuns[i].attempt == attempt
    && listing.workflowRuns[i].updatedAt == updatedAt
    && cfg.windowStart <= listing.workflowRuns[i].createdAt < cfg.windowEnd
  }

  /** A listed deployment of the half-open window with this identity. */
  ghost predicate IsWindowDeployment(cfg: Config, listing: RestListing, i: int, id: int) {
    && 0 <= i < |listing.deployments|
    && listing.deployments[i].id == id
    && cfg.windowStart <= listing.deployments[i].createdAt < cfg.windowEnd
  }

  /** Status j, of whatever time, of a deployment of the window. */
  ghost predicate IsWindowStatus(cfg: Config, listing: RestListing, i: int, deploymentId: int, j: int, id: int) {
    && IsWindowDeployment(cfg, listing, i, deploymentId)
    && deploymentId in listing.statuses && 0 <= j < |listing.statuses[deploymentId]|
    && listing.statuses[deploymentId][j].id == id
  }

  function RunRowKey(id: int, attempt: int, updatedAt: int): RawKey { RawKey(Backfill, WorkflowRunKey(id, attempt, updatedAt)) }

  function DeploymentRowKey(id: int): RawKey { RawKey(Backfill, DeploymentKey(id)) }

  function StatusRowKey(id: int): RawKey { RawKey(Backfill, DeploymentStatusKey(id)) }

  // ---------------------------------------------------------------- which records the window asks for

  lemma RunIsExpected(cfg: Config, listing: RestListing, i: int, id: int, attempt: int, updatedAt: int) returns (r: BackfillRecord)
    requires IsWindowRun(cfg, listing, i, id, attempt, updatedAt)
    ensures Expected(cfg, listing, r) && r.Key() == RunRowKey(id, attempt, updatedAt)
  {
    r := WorkflowRunRecord(cfg, listing.workflowRuns[i]);
    assert HasRecord(RunsFamily(cfg, listing), i, r);
  }

  lemma DeploymentIsExpected(cfg: Config, listing: RestListing, i: int, id: int) returns (r: BackfillRecord)
    requires IsWindowDeployment(cfg, listing, i, id)
    ensures Expected(cfg, listing, r) && r.Key() == DeploymentRowKey(id)
  {
    r := DeploymentRecord(cfg, listing.deployments[i]);
    assert HasRecord(DeploymentsFamily(cfg, listing), i, r);
  }

  lemma StatusIsExpected(cfg: Config, listing: RestListing, i: int, deploymentId: int, j: int, id: int) returns (r: BackfillRecord)
    requires IsWindowStatus(cfg, listing, i, deploymentId, j, id)
    ensures Expected(cfg, listing, r) && r.Key() == StatusRowKey(id)
  {
    r := StatusRecord(cfg, deploymentId, listing.statuses[deploymentId][j]);
    assert WindowId(cfg, listing, deploymentId);
    assert HasRecord(StatusesFamily(cfg, listing, deploymentId), j, r);
  }

  ghost predicate IsRunRow(cfg: Config, listing: RestListing, i: int, k: RawKey, row: RawRow) {
    && 0 <= i < |listing.workflowRuns|
    && var run := listing.workflowRuns[i];
       && IsWindowRun(cfg, listing, i, run.id, run.attempt, run.updatedAt)
       && k == RunRowKey(run.id, run.attempt, run.updatedAt)
       && HasColumns(row, cfg, "workflow_run", run.status, run.createdAt, run.json, None)
  }

  ghost predicate IsDeploymentRow(cfg: Config, listing: RestListing, i: int, k: RawKey, row: RawRow) {
    && 0 <= i < |listing.deployments|
    && var deployment := listing.deployments[i];
       && IsWindowDeployment(cfg, listing, i, deployment.id)
       && k == DeploymentRowKey(deployment.id)
       && HasColumns(row, cfg, "deployment", "created", deployment.createdAt, deployment.json, None)
  }

  ghost predicate IsStatusRow(cfg: Config, listing: RestListing, i: int, j: int, k: RawKey, row: RawRow) {
    && 0 <= i < |listing.deployments|
    && var id := listing.deployments[i].id;
       && id in listing.statuses && 0 <= j < |listing.statuses[id]|
       && var status := listing.statuses[id][j];
          && IsWindowStatus(cfg, listing, i, id, j, status.id)
          && k == StatusRowKey(status.id)
          && HasColumns(row, cfg, "deployment_status", status.state, status.createdAt, status.json, Some(DeploymentParent(id)))
  }

  /** A run or deployment of the window, or a status of one, has this identity and these columns. */
  ghost predicate IsListedRow(cfg: Config, listing: RestListing, k: RawKey, row: RawRow) {
    || (exists i :: IsRunRow(cfg, listing, i, k, row))
    || (exists i :: IsDeploymentRow(cfg, listing, i, k, row))
    || (exists i, j :: IsStatusRow(cfg, listing, i, j, k, row))
  }

  lemma RecordIsListed(cfg: Config, listing: RestListing, r: BackfillRecord)
    requires Expected(cfg, listing, r)
    ensures IsListedRow(cfg, listing, r.Key(), r.Row())
  {
    var f, i: nat :| Asked(cfg, listing, f) && HasRecord(f, i, r);
    if f == RunsFamily(cfg, listing) {
      assert IsRunRow(cfg, listing, i, r.Key(), r.Row());
    } else if f == DeploymentsFamily(cfg, listing) {
      assert IsDeploymentRow(cfg, listing, i, r.Key(), r.Row());
    } else {
      var id :| WindowId(cfg, listing, id) && f == StatusesFamily(cfg, listing, id);
      var d :| 0 <= d < |listing.deployments| && cfg.InWindow(listing.deployments[d].createdAt) && listing.deployments[d].id == id;
      assert IsStatusRow(cfg, listing, d, i, r.Key(), r.Row());
    }
  }

  // ---------------------------------------------------------------- the rows themselves

  /** Every backfilled row that is new since the start has the identity and every column of a listed item of the window. */
  lemma NewRowsAreListed(cfg: Config, listing: RestListing, base: RawTable, s: Store, h: History)
    requires Inv(cfg, listing, base, s, h)
    ensures forall k | k in s.raw && k !in base && k.source.Backfill? :: IsListedRow(cfg, listing, k, s.raw[k])
  {
    hide FamilyOk, IsFamily, StatusesFirst, WasFetched, Expected, IsListedRow;
    forall k | k in s.raw && k !in base && k.source.Backfill? ensures IsListedRow(cfg, listing, k, s.raw[k]) {
      var r :| r in Wanted(cfg, listing, h) && r.Key() == k && r.Row() == s.raw[k];
      FetchedIsExpected(cfg, listing, h, r);
      RecordIsListed(cfg, listing, r);
    }
  }

  /**
   * After completed traversals without gaps, a new row exists under an identity exactly when some
   * listed run, deployment, or status of such a deployment of the half-open window has it.
   */
  lemma CompletedHoldsWindow(cfg: Config, listing: RestListing, base: RawTable, s: Store, h: History)
    requires Inv(cfg, listing, base, s, h) && Guarded(cfg, listing, h)
    requires IsCompleted(s, RunsKey(cfg)) && IsCompleted(s, DeploymentsKey(cfg))
    ensures forall id, attempt, updatedAt | RunRowKey(id, attempt, updatedAt) !in base ::
              RunRowKey(id, attempt, updatedAt) in s.raw <==> exists i :: IsWindowRun(cfg, listing, i, id, attempt, updatedAt)
    ensures forall id | DeploymentRowKey(id) !in base ::
              DeploymentRowKey(id) in s.raw <==> exists i :: IsWindowDeployment(cfg, listing, i, id)
    ensures forall id | StatusRowKey(id) !in base ::
              StatusRowKey(id) in s.raw <==> exists i, deploymentId, j :: IsWindowStatus(cfg, listing, i, deploymentId, j, id)
  {
    hide Inv, Guarded, IsCompleted, Expected, HasColumns, IsWindowRun, IsWindowDeployment, IsWindowStatus;
    CompletedIsExact(cfg, listing, base, s, h);
    NewRowsAreListed(cfg, listing, base, s, h);
    forall i, id, attempt, updatedAt | IsWindowRun(cfg, listing, i, id, attempt, updatedAt)
      ensures RunRowKey(id, attempt, updatedAt) in s.raw
    {
      var r := RunIsExpected(cfg, listing, i, id, attempt, updatedAt);
    }
    forall i, id | IsWindowDeployment(cfg, listing, i, id) ensures DeploymentRowKey(id) in s.raw {
      var r := DeploymentIsExpected(cfg, listing, i, id);
    }
    forall i, deploymentId, j, id | IsWindowStatus(cfg, listing, i, deploymentId, j, id) ensures StatusRowKey(id) in s.raw {
      var r := StatusIsExpected(cfg, listing, i, deploymentId, j, id);
    }
  }
}
