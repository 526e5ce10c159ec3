/**
 * The four tables behind the pull-request monitor and the effect of one committed
 * transaction on them.  Timestamps are integers; the wall-clock bookkeeping columns
 * (projected_at, updated_at) are not modelled.
 */
module PullRequestTables {
  import opened Wrappers

  datatype PrKey = PrKey(repositoryId: int, pullRequestId: int)

  datatype PullRequestState = Open | Closed

  datatype Snapshot = Snapshot(
    deliveryId: string,
    repositoryId: int,
    repositoryFullName: string,
    pullRequestId: int,
    pullRequestNumber: int,
    state: PullRequestState,
    title: string,
    authorId: int,
    authorLogin: string,
    isDraft: bool,
    openedAt: int,
    updatedAt: int)
  {
    function Key(): PrKey { PrKey(repositoryId, pullRequestId) }
  }

  datatype ReviewColumns = ReviewColumns(
    reviewId: int, reviewerId: int, reviewerLogin: string, submittedAt: int)

  /** A command for the projection: a bare snapshot, or a submitted review with its snapshot. */
  datatype Event =
    | PullRequestEvent(snapshot: Snapshot)
    | ReviewEvent(snapshot: Snapshot, review: ReviewColumns)
  {
    function Key(): PrKey { snapshot.Key() }

    /** A review counts only when the reviewer is not the author its own snapshot names. */
    predicate Eligible() { ReviewEvent? && review.reviewerId != snapshot.authorId }
  }

  datatype Watermark = Watermark(lastEventAt: int, lastDeliveryId: string)

  /** The four nullable review columns are null together, so they are one optional value. */
  datatype OpenRow = OpenRow(
    pullRequestNumber: int,
    repositoryFullName: string,
    title: string,
    authorId: int,
    authorLogin: string,
    isDraft: bool,
    openedAt: int,
    lastSourceUpdatedAt: int,
    firstReview: Option<ReviewColumns>)

  datatype AlertStatus = Pending | Cancelled

  /** An outbox row; the payload columns are those copied from the open row. */
  datatype Alert = Alert(
    pullRequestNumber: int,
    createdAt: int,
    repositoryFullName: string,
    title: string,
    authorLogin: string,
    openedAt: int,
    staleCutoff: int,
    status: AlertStatus)

  /** The alert key is an injective rendering of the PR key, so the outbox is keyed by the latter. */
  datatype Tables = Tables(
    watermarks: map<PrKey, Watermark>,
    openRows: map<PrKey, OpenRow>,
    firstReviews: map<PrKey, ReviewColumns>,
    alerts: map<PrKey, Alert>)

  const EMPTY := Tables(map[], map[], map[], map[])

  datatype Outcome = Applied | Stale | Recorded | Ineligible | Unchanged

  datatype StorageError = UniqueViolation

  function Row(s: Snapshot, review: Option<ReviewColumns>): OpenRow {
    OpenRow(s.pullRequestNumber, s.repositoryFullName, s.title, s.authorId, s.authorLogin,
            s.isDraft, s.openedAt, s.updatedAt, review)
  }

  /** The guard of the watermark upsert: strictly newer than what the row holds. */
  predicate Advances(t: Tables, s: Snapshot) {
    s.Key() in t.watermarks ==> s.updatedAt > t.watermarks[s.Key()].lastEventAt
  }

  /** Another open pull request of the same repository already uses the number. */
  predicate NumberTaken(open: map<PrKey, OpenRow>, s: Snapshot) {
    exists k :: k in open && k.repositoryId == s.repositoryId && k != s.Key()
                && open[k].pullRequestNumber == s.pullRequestNumber
  }

  predicate Conflicts(t: Tables, s: Snapshot) {
    Advances(t, s) && s.state.Open? && NumberTaken(t.openRows, s)
  }

  /** The review columns an upserted row ends up with: kept on conflict, then synchronised. */
  function SyncedReview(t: Tables, k: PrKey): Option<ReviewColumns> {
    if k in t.firstReviews then Some(t.firstReviews[k])
    else if k in t.openRows then t.openRows[k].firstReview
    else None
  }

  function CancelPending(alerts: map<PrKey, Alert>, k: PrKey): map<PrKey, Alert> {
    if k in alerts && alerts[k].status.Pending?
    then alerts[k := alerts[k].(status := Cancelled)]
    else alerts
  }

  function AfterSnapshot(t: Tables, s: Snapshot): Tables {
    if !Advances(t, s) then t
    else
      var k := s.Key();
      var watermarks := t.watermarks[k := Watermark(s.updatedAt, s.deliveryId)];
      match s.state
      case Open =>
        t.(watermarks := watermarks, openRows := t.openRows[k := Row(s, SyncedReview(t, k))])
      case Closed =>
        t.(watermarks := watermarks, openRows := t.openRows - {k}, alerts := CancelPending(t.alerts, k))
  }

  /** The guard of the first-review upsert: strictly earlier than what the row holds. */
  predicate Precedes(t: Tables, k: PrKey, r: ReviewColumns) {
    k in t.firstReviews ==> r.submittedAt < t.firstReviews[k].submittedAt
  }

  function AfterReview(t: Tables, k: PrKey, r: ReviewColumns): Tables {
    if !Precedes(t, k, r) then t
    else
      t.(firstReviews := t.firstReviews[k := r],
         openRows := if k in t.openRows
                     then t.openRows[k := t.openRows[k].(firstReview := Some(r))]
                     else t.openRows)
  }

  /** One event transaction: the new tables and the outcome, or a rolled-back violation. */
  function Apply(t: Tables, e: Event): Result<(Tables, Outcome), StorageError> {
    var s := e.snapshot;
    if Conflicts(t, s) then Failure(UniqueViolation)
    else
      var t1 := AfterSnapshot(t, s);
      match e
      case PullRequestEvent(_) => Success((t1, if Advances(t, s) then Applied else Stale))
      case ReviewEvent(_, r) =>
        if !e.Eligible() then Success((t1, Ineligible))
        else Success((AfterReview(t1, e.Key(), r), if Precedes(t1, e.Key(), r) then Recorded else Unchanged))
  }

  predicate IsStale(row: OpenRow, cutoff: int) {
    row.openedAt <= cutoff && row.firstReview.None? && !row.isDraft
  }

  function NewAlert(row: OpenRow, cutoff: int, createdAt: int): Alert {
    Alert(row.pullRequestNumber, createdAt, row.repositoryFullName, row.title, row.authorLogin,
          row.openedAt, cutoff, Pending)
  }

  /** The rows one stale sweep inserts: eligible open rows without an outbox row of any status. */
  function NewAlerts(t: Tables, cutoff: int, createdAt: int): map<PrKey, Alert> {
    map k | k in t.openRows && IsStale(t.openRows[k], cutoff) && k !in t.alerts
      :: NewAlert(t.openRows[k], cutoff, createdAt)
  }

  /** Everything that ever writes the four tables. */
  datatype Op = Deliver(event: Event) | Sweep(cutoff: int, createdAt: int)

  /** One committed operation; a violated constraint rolls back and leaves the tables alone. */
  function Step(t: Tables, op: Op): Tables {
    match op
    case Deliver(e) => (match Apply(t, e) case Success(p) => p.0 case Failure(_) => t)
    case Sweep(cutoff, createdAt) => t.(alerts := t.alerts + NewAlerts(t, cutoff, createdAt))
  }

  /** The tables after a whole history of operations, oldest first. */
  function Run(h: seq<Op>): Tables {
    if h == [] then EMPTY else Step(Run(h[..|h| - 1]), h[|h| - 1])
  }
}
