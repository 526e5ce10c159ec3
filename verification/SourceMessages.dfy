/**
 * Kafka source records as the consumers see them.  Validation is not modelled: a record either
 * carries a valid envelope or none, and a payload part is absent when its own validation fails.
 */
module SourceMessages {
  import opened Wrappers
  import opened PullRequestTables

  datatype EventName = PullRequestName | PullRequestReviewName | WorkflowRunName | DeploymentName | DeploymentStatusName
  {
    function Value(): string {
      match this
      case PullRequestName => "pull_request"
      case PullRequestReviewName => "pull_request_review"
      case WorkflowRunName => "workflow_run"
      case DeploymentName => "deployment"
      case DeploymentStatusName => "deployment_status"
    }
  }

  datatype PullRequestPart = PullRequestPart(
    id: int, number: int, state: PullRequestState, title: string, userId: int, userLogin: string,
    draft: bool, createdAt: int, updatedAt: int)

  datatype Payload = Payload(
    json: string, occurredAt: Option<int>, pullRequest: Option<PullRequestPart>, review: Option<ReviewColumns>)

  datatype Envelope = Envelope(
    deliveryId: string, eventName: EventName, action: string, installationId: int, repositoryId: int,
    repositoryFullName: string, receivedAt: int, payload: Payload)

  datatype Message = Message(
    key: Option<string>, value: Option<string>, envelope: Option<Envelope>, recoverableDeliveryId: Option<string>)

  function SnapshotOf(e: Envelope, pr: PullRequestPart): Snapshot {
    Snapshot(e.deliveryId, e.repositoryId, e.repositoryFullName, pr.id, pr.number, pr.state, pr.title,
             pr.userId, pr.userLogin, pr.draft, pr.createdAt, pr.updatedAt)
  }

  datatype Command = Project(event: Event) | Ignore | InvalidMonitorEvent

  /** Routing of a valid envelope: only pull requests and submitted reviews are projected. */
  function ProjectionCommand(e: Envelope): Command {
    if e.eventName.PullRequestName? then
      (match e.payload.pullRequest
       case None => InvalidMonitorEvent
       case Some(pr) => Project(PullRequestEvent(SnapshotOf(e, pr))))
    else if !e.eventName.PullRequestReviewName? || e.action != "submitted" then Ignore
    else
      match (e.payload.pullRequest, e.payload.review)
      case (Some(pr), Some(review)) => Project(ReviewEvent(SnapshotOf(e, pr), review))
      case _ => InvalidMonitorEvent
  }

  type Logs = seq<seq<Message>>

  ghost function Lengths(logs: Logs): seq<nat> { seq(|logs|, p requires 0 <= p < |logs| => |logs[p]|) }
}
