/** A frozen REST listing cut into numbered pages, and the records it yields. */
module RestListing {
  import opened Wrappers
  import opened Arithmetic
  import opened RawEvents
  import opened BackfillStorage
  import opened BackfillProgress
  import opened BackfillRuns
  import opened PageHistory

  datatype WorkflowRunNode = WorkflowRunNode(id: int, attempt: int, createdAt: int, updatedAt: int, status: string, json: string)

  datatype DeploymentNode = DeploymentNode(id: int, createdAt: int, json: string)

  datatype StatusNode = StatusNode(id: int, state: string, createdAt: int, json: string)

  datatype RestListing = RestListing(
    workflowRuns: seq<WorkflowRunNode>, deployments: seq<DeploymentNode>, statuses: map<int, seq<StatusNode>>)
  {
    function Statuses(id: int): seq<StatusNode> { if id in statuses then statuses[id] else [] }
  }

  const MAX_FILTERED_WORKFLOW_RUNS: nat := 1000

  datatype RunsReply = RunsRaised | Runs(totalCount: nat, runs: seq<WorkflowRunNode>)

  datatype RestReply<+T> = RestRaised | Nodes(nodes: seq<T>)

  /** What the API answers to its n-th request for a page size and page number. */
  datatype RestScript = RestScript(
    workflowRuns: (nat, nat, int) -> RunsReply,
    deployments: (nat, nat, int) -> RestReply<DeploymentNode>,
    statuses: (nat, int, nat, int) -> RestReply<StatusNode>)

  /** The connection to the API: after so many answers it fails for good, unless that never happens. */
  class RestClient {
    const script: RestScript
    var asked: nat
    var left: Option<nat>

    constructor (script: RestScript, left: Option<nat>)
      ensures this.script == script && this.left == left && asked == 0
    {
      this.script, this.left, asked := script, left, 0;
    }

    method WorkflowRuns(size: nat, page: int) returns (reply: RunsReply)
      modifies this
      ensures reply == if old(left) == Some(0) then RunsRaised else script.workflowRuns(old(asked), size, page)
      ensures asked == old(asked) + 1 && left == Spent(old(left))
    {
      reply := if left == Some(0) then RunsRaised else script.workflowRuns(asked, size, page);
      asked, left := asked + 1, Spent(left);
    }

    method Deployments(size: nat, page: int) returns (reply: RestReply<DeploymentNode>)
      modifies this
      ensures reply == if old(left) == Some(0) then RestRaised else script.deployments(old(asked), size, page)
      ensures asked == old(asked) + 1 && left == Spent(old(left))
    {
      reply := if left == Some(0) then RestRaised else script.deployments(asked, size, page);
      asked, left := asked + 1, Spent(left);
    }

    method Statuses(id: int, size: nat, page: int) returns (reply: RestReply<StatusNode>)
      modifies this
      ensures reply == if old(left) == Some(0) then RestRaised else script.statuses(old(asked), id, size, page)
      ensures asked == old(asked) + 1 && left == Spent(old(left))
    {
      reply := if left == Some(0) then RestRaised else script.statuses(asked, id, size, page);
      asked, left := asked + 1, Spent(left);
    }
  }

  // ---------------------------------------------------------------- page arithmetic

  /** How many items precede a page. */
  function Reach(page: int, size: nat, length: nat): nat
    requires page >= 1
  {
    Min((page - 1) * size, length)
  }

  lemma ReachGrows(page: int, size: nat, length: nat)
    requires page >= 1
    ensures Reach(page, size, length) <= Reach(page + 1, size, length) <= length
    ensures size >= 1 ==> (Reach(page + 1, size, length) - Reach(page, size, length) < size <==> page * size > length)
    ensures page * size >= length <==> Reach(page + 1, size, length) == length
  {
    assert page * size == (page - 1) * size + size;
  }

  function PageOf<T>(items: seq<T>, size: nat, page: int): seq<T>
    requires page >= 1
  {
    ReachGrows(page, size, |items|);
    items[Reach(page, size, |items|)..Reach(page + 1, size, |items|)]
  }

  /** An item is among the nodes of a page exactly when it lies on that page. */
  lemma PageOfHas<T>(items: seq<T>, size: nat, page: int, x: T)
    requires page >= 1
    ensures x in PageOf(items, size, page) <==> exists i: nat :: i < |items| && OnPage(i, page, size) && items[i] == x
  {
    ReachGrows(page, size, |items|);
    var lo := Reach(page, size, |items|);
    if x in PageOf(items, size, page) {
      var j :| 0 <= j < |PageOf(items, size, page)| && PageOf(items, size, page)[j] == x;
      assert items[lo + j] == x && OnPage(lo + j, page, size);
    }
    forall i: nat | i < |items| && OnPage(i, page, size) && items[i] == x ensures x in PageOf(items, size, page) {
      assert PageOf(items, size, page)[i - lo] == x;
    }
  }

  /** How many items a listing holds before a page, if it is long enough. */
  function ItemsBefore(page: int, size: nat): int { (page - 1) * size }

  lemma ItemsBeforeNext(page: int, size: nat)
    ensures ItemsBefore(page + 1, size) == page * size == ItemsBefore(page, size) + size
  {
  }

  lemma BelowCapIsBelowCeil(page: int, size: nat)
    requires size >= 1 && page >= 1 && ItemsBefore(page, size) < MAX_FILTERED_WORKFLOW_RUNS
    ensures page <= CeilDiv(MAX_FILTERED_WORKFLOW_RUNS, size)
  {
    var c, a := CeilDiv(MAX_FILTERED_WORKFLOW_RUNS, size), MAX_FILTERED_WORKFLOW_RUNS + size - 1;
    assert a == c * size + a % size;
    if page - 1 >= c {
      ProductGrows(c, page - 1, size);
    }
  }

  /** The most requests a workflow-run traversal makes when it resumes at this page. */
  function RequestBound(size: nat, next: Result<int, RestError>): int
    requires size >= 1
  {
    match next
    case Success(page) => Max(1, CeilDiv(MAX_FILTERED_WORKFLOW_RUNS, size) - page + 1)
    case Failure(_) => 0
  }

  // ---------------------------------------------------------------- faithful answers

  /** Answers come from the frozen listing or fail; the server counts all filtered runs. */
  ghost predicate RestFaithful(script: RestScript, listing: RestListing) {
    && (forall t, size, page | page >= 1 ::
          script.workflowRuns(t, size, page).RunsRaised?
          || script.workflowRuns(t, size, page) == Runs(|listing.workflowRuns|, PageOf(listing.workflowRuns, size, page)))
    && (forall t, size, page | page >= 1 ::
          script.deployments(t, size, page).RestRaised?
          || script.deployments(t, size, page) == Nodes(PageOf(listing.deployments, size, page)))
    && (forall t, id, size, page | page >= 1 ::
          script.statuses(t, id, size, page).RestRaised?
          || script.statuses(t, id, size, page) == Nodes(PageOf(listing.Statuses(id), size, page)))
  }

  /** A script without failures. */
  ghost predicate RestUninterrupted(script: RestScript, listing: RestListing) {
    && (forall t, size, page | page >= 1 ::
          script.workflowRuns(t, size, page) == Runs(|listing.workflowRuns|, PageOf(listing.workflowRuns, size, page)))
    && (forall t, size, page | page >= 1 :: script.deployments(t, size, page) == Nodes(PageOf(listing.deployments, size, page)))
    && (forall t, id, size, page | page >= 1 ::
          script.statuses(t, id, size, page) == Nodes(PageOf(listing.Statuses(id), size, page)))
  }

  // ---------------------------------------------------------------- keys and records

  function RunsKey(cfg: Config): RunKey {
    RunKey(cfg.repositoryId, WorkflowRuns, RepositoryScope, cfg.windowStart, cfg.windowEnd)
  }

  function DeploymentsKey(cfg: Config): RunKey {
    RunKey(cfg.repositoryId, Deployments, RepositoryScope, cfg.windowStart, cfg.windowEnd)
  }

  function StatusesKey(cfg: Config, id: int): RunKey {
    RunKey(cfg.repositoryId, DeploymentStatuses, DeploymentScope(id), cfg.windowStart, cfg.windowEnd)
  }

  function WorkflowRunRecord(cfg: Config, node: WorkflowRunNode): BackfillRecord {
    BackfillRecord(WorkflowRunKey(node.id, node.attempt, node.updatedAt), "workflow_run", node.status,
                   cfg.repositoryId, cfg.installationId, Some(node.createdAt), RawPayload(node.json, None))
  }

  function DeploymentRecord(cfg: Config, node: DeploymentNode): BackfillRecord {
    BackfillRecord(DeploymentKey(node.id), "deployment", "created", cfg.repositoryId, cfg.installationId,
                   Some(node.createdAt), RawPayload(node.json, None))
  }

  function StatusRecord(cfg: Config, id: int, node: StatusNode): BackfillRecord {
    BackfillRecord(DeploymentStatusKey(node.id), "deployment_status", node.state, cfg.repositoryId,
                   cfg.installationId, Some(node.createdAt), RawPayload(node.json, Some(DeploymentParent(id))))
  }

  function RunCandidates(cfg: Config, nodes: seq<WorkflowRunNode>): (candidates: seq<Option<BackfillRecord>>)
    ensures |candidates| == |nodes|
  {
    seq(|nodes|, i requires 0 <= i < |nodes| =>
      if cfg.InWindow(nodes[i].createdAt) then Some(WorkflowRunRecord(cfg, nodes[i])) else None)
  }

  function DeploymentCandidates(cfg: Config, nodes: seq<DeploymentNode>): (candidates: seq<Option<BackfillRecord>>)
    ensures |candidates| == |nodes|
  {
    seq(|nodes|, i requires 0 <= i < |nodes| =>
      if cfg.InWindow(nodes[i].createdAt) then Some(DeploymentRecord(cfg, nodes[i])) else None)
  }

  /** Statuses are taken whatever their time. */
  function StatusCandidates(cfg: Config, id: int, nodes: seq<StatusNode>): (candidates: seq<Option<BackfillRecord>>)
    ensures |candidates| == |nodes|
  {
    seq(|nodes|, i requires 0 <= i < |nodes| => Some(StatusRecord(cfg, id, nodes[i])))
  }

  lemma RunCandidatesOfPage(cfg: Config, nodes: seq<WorkflowRunNode>, size: nat, page: int)
    requires page >= 1
    ensures RunCandidates(cfg, PageOf(nodes, size, page)) == PageOf(RunCandidates(cfg, nodes), size, page)
  {
    ReachGrows(page, size, |nodes|);
  }

  lemma DeploymentCandidatesOfPage(cfg: Config, nodes: seq<DeploymentNode>, size: nat, page: int)
    requires page >= 1
    ensures DeploymentCandidates(cfg, PageOf(nodes, size, page)) == PageOf(DeploymentCandidates(cfg, nodes), size, page)
  {
    ReachGrows(page, size, |nodes|);
  }

  lemma StatusCandidatesOfPage(cfg: Config, id: int, nodes: seq<StatusNode>, size: nat, page: int)
    requires page >= 1
    ensures StatusCandidates(cfg, id, PageOf(nodes, size, page)) == PageOf(StatusCandidates(cfg, id, nodes), size, page)
  {
    ReachGrows(page, size, |nodes|);
  }

  lemma CandidatesRepository(cfg: Config, candidates: seq<Option<BackfillRecord>>)
    requires forall c | c in candidates && c.Some? :: c.value.repositoryId == cfg.repositoryId
    ensures forall r | r in Chosen(candidates) :: r.repositoryId == cfg.repositoryId
  {
    forall r | r in Chosen(candidates) ensures r.repositoryId == cfg.repositoryId {
      ChosenHas(candidates, r);
    }
  }

  lemma DeploymentCandidatesAppend(cfg: Config, nodes: seq<DeploymentNode>, node: DeploymentNode)
    ensures Chosen(DeploymentCandidates(cfg, nodes + [node])) ==
            Chosen(DeploymentCandidates(cfg, nodes)) + if cfg.InWindow(node.createdAt) then [DeploymentRecord(cfg, node)] else []
  {
    var c := if cfg.InWindow(node.createdAt) then Some(DeploymentRecord(cfg, node)) else None;
    assert DeploymentCandidates(cfg, nodes + [node]) == DeploymentCandidates(cfg, nodes) + [c];
    ChosenAppend(DeploymentCandidates(cfg, nodes), c);
  }

  // ---------------------------------------------------------------- page-number checkpoints

  datatype RestError = InvalidWindow | RequestFailed | StorageFailed | TooManyRuns | EndedEarly | BadCheckpoint

  /** The page a REST traversal resumes at, or the error its stored cursor raises. */
  function NextPage(checkpoint: Option<Checkpoint>): Result<int, RestError> {
    match checkpoint
    case None => Success(1)
    case Some(c) =>
      match c.cursor
      case Some(PageNumber(page)) => if page >= 1 then Success(page) else Failure(BadCheckpoint)
      case _ => Failure(BadCheckpoint)
  }

  function PageCursor(page: int, completed: bool): Option<Cursor> {
    if completed then None else Some(PageNumber(page + 1))
  }

  /** The key is about to be advanced from this page. */
  ghost predicate AtPage(s: Store, key: RunKey, page: int) {
    !IsCompleted(s, key) && NextPage(Lookup(s.checkpoints, key)) == Success(page)
  }

  lemma StartsAtPage(s: Store, key: RunKey, page: int)
    requires !IsCompleted(s, key) && NextPage(Lookup(s.checkpoints, key)) == Success(page)
    ensures AtPage(s, key, page) && page >= 1
  {
  }

  lemma AtPageIsLookup(s: Store, t: Store, key: RunKey, page: int)
    requires AtPage(s, key, page) && Lookup(s.checkpoints, key) == Lookup(t.checkpoints, key)
    ensures AtPage(t, key, page)
  {
  }

  lemma PageAdvances(s: Store, key: RunKey, page: int, records: seq<BackfillRecord>, completed: bool)
    requires AtPage(s, key, page)
    ensures page >= 1 && !IsCompleted(s, key)
    ensures var t := Persisted(s, key, records, PageCursor(page, completed));
            if completed then IsCompleted(t, key) else AtPage(t, key, page + 1)
  {
  }
}
