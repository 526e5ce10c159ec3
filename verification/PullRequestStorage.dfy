/** The storage class, one method per SQL statement and one per public transaction. */
module PullRequestStorage {
  import opened Wrappers
  import opened PullRequestTables

  class PostgresPullRequestStorage {
    var watermarks: map<PrKey, Watermark>
    var openRows: map<PrKey, OpenRow>
    var firstReviews: map<PrKey, ReviewColumns>
    var alerts: map<PrKey, Alert>

    ghost function View(): Tables
      reads this
    {
      Tables(watermarks, openRows, firstReviews, alerts)
    }

    constructor ()
      ensures View() == EMPTY
    {
      watermarks, openRows, firstReviews, alerts := map[], map[], map[], map[];
    }

    method AdvanceWatermark(s: Snapshot) returns (advanced: bool)
      modifies this`watermarks
      ensures advanced == old(Advances(View(), s))
      ensures watermarks == if advanced then old(watermarks)[s.Key() := Watermark(s.updatedAt, s.deliveryId)]
                            else old(watermarks)
    {
      var k := s.Key();
      if k in watermarks && s.updatedAt <= watermarks[k].lastEventAt {
        return false;
      }
      watermarks := watermarks[k := Watermark(s.updatedAt, s.deliveryId)];
      return true;
    }

    method UpsertOpenPullRequest(s: Snapshot) returns (ok: bool)
      modifies this`openRows
      ensures ok == !old(NumberTaken(openRows, s))
      ensures var kept := if s.Key() in old(openRows) then old(openRows)[s.Key()].firstReview else None;
              openRows == if ok then old(openRows)[s.Key() := Row(s, kept)] else old(openRows)
    {
      var k := s.Key();
      if exists other | other in openRows :: other.repositoryId == s.repositoryId && other != k
                                            && openRows[other].pullRequestNumber == s.pullRequestNumber {
        return false;
      }
      var kept := if k in openRows then openRows[k].firstReview else None;
      openRows := openRows[k := Row(s, kept)];
      return true;
    }

    method SyncFirstReviewToOpen(k: PrKey)
      modifies this`openRows
      ensures openRows == if k in old(openRows) && k in firstReviews
                          then old(openRows)[k := old(openRows)[k].(firstReview := Some(firstReviews[k]))]
                          else old(openRows)
    {
      if k in openRows && k in firstReviews {
        openRows := openRows[k := openRows[k].(firstReview := Some(firstReviews[k]))];
      }
    }

    method RecordFirstEligibleReview(k: PrKey, r: ReviewColumns) returns (recorded: bool)
      modifies this`firstReviews
      ensures recorded == old(Precedes(View(), k, r))
      ensures firstReviews == if recorded then old(firstReviews)[k := r] else old(firstReviews)
    {
      if k in firstReviews && r.submittedAt >= firstReviews[k].submittedAt {
        return false;
      }
      firstReviews := firstReviews[k := r];
      return true;
    }

    method CancelPendingAlert(k: PrKey)
      modifies this`alerts
      ensures alerts == CancelPending(old(alerts), k)
    {
      if k in alerts && alerts[k].status == Pending {
        alerts := alerts[k := alerts[k].(status := Cancelled)];
      }
    }

    /** Project an advancing snapshot; false reports the unique violation. */
    method ApplySnapshotState(s: Snapshot) returns (ok: bool)
      modifies this`openRows, this`alerts
      ensures ok == !old(s.state.Open? && NumberTaken(openRows, s))
      ensures ok && s.state.Open? ==> openRows == old(openRows[s.Key() := Row(s, SyncedReview(View(), s.Key()))])
      ensures s.state.Open? ==> alerts == old(alerts)
      ensures s.state.Closed? ==> openRows == old(openRows) - {s.Key()} && alerts == CancelPending(old(alerts), s.Key())
    {
      if s.state == Open {
        ok := UpsertOpenPullRequest(s);
        if ok {
          SyncFirstReviewToOpen(s.Key());
        }
        return ok;
      }
      openRows := openRows - {s.Key()};
      CancelPendingAlert(s.Key());
      return true;
    }

    /** Another open pull request of the repository has the number. */
    ghost predicate NumberInUse(s: Snapshot)
      reads this
    {
      exists other | other in openRows ::
        && other.repositoryId == s.repositoryId && other.pullRequestId != s.pullRequestId
        && openRows[other].pullRequestNumber == s.pullRequestNumber
    }

    /** The snapshot is the first of its pull request, or strictly newer than the last one applied. */
    ghost predicate Newer(s: Snapshot)
      reads this
    {
      var k := PrKey(s.repositoryId, s.pullRequestId);
      k !in watermarks || s.updatedAt > watermarks[k].lastEventAt
    }

    method ApplyPullRequest(s: Snapshot) returns (r: Result<Outcome, StorageError>)
      modifies this
      ensures r.Failure? <==> old(Newer(s) && s.state == Open && NumberInUse(s))
      ensures r == Success(Stale) <==> !old(Newer(s))
      ensures r.Success? ==> r.value in {Applied, Stale}
      ensures r == Success(Applied) ==>
                var k := PrKey(s.repositoryId, s.pullRequestId);
                && k in watermarks && watermarks[k].lastEventAt == s.updatedAt && watermarks[k].lastDeliveryId == s.deliveryId
                && (k in openRows <==> s.state == Open)
                && (s.state == Closed && k in alerts ==> alerts[k].status == Cancelled)
      ensures r == Success(Applied) && s.state == Open ==>
                var row := openRows[PrKey(s.repositoryId, s.pullRequestId)];
                && row.pullRequestNumber == s.pullRequestNumber
                && row.repositoryFullName == s.repositoryFullName
                && row.title == s.title
                && row.authorId == s.authorId
                && row.authorLogin == s.authorLogin
                && row.isDraft == s.isDraft
                && row.openedAt == s.openedAt
                && row.lastSourceUpdatedAt == s.updatedAt
      ensures match Apply(old(View()), PullRequestEvent(s))
              case Success(p) => r == Success(p.1) && View() == p.0
              case Failure(e) => r == Failure(e) && View() == old(View())
    {
      var saved := (watermarks, openRows, firstReviews, alerts);
      var advanced := AdvanceWatermark(s);
      if !advanced {
        return Success(Stale);
      }
      var ok := ApplySnapshotState(s);
      if !ok {
        watermarks, openRows, firstReviews, alerts := saved.0, saved.1, saved.2, saved.3;
        return Failure(UniqueViolation);
      }
      return Success(Applied);
    }

    /** The author's own review is ineligible; of the others the earliest is kept, in both tables. */
    method ApplyReview(s: Snapshot, review: ReviewColumns) returns (r: Result<Outcome, StorageError>)
      modifies this
      ensures r.Failure? <==> old(Newer(s) && s.state == Open && NumberInUse(s))
      ensures review.reviewerId == s.authorId ==> firstReviews == old(firstReviews) && (r.Success? ==> r.value == Ineligible)
      ensures review.reviewerId != s.authorId && r.Success? ==>
                var k := PrKey(s.repositoryId, s.pullRequestId);
                if k !in old(firstReviews) || review.submittedAt < old(firstReviews)[k].submittedAt
                then && r.value == Recorded && firstReviews == old(firstReviews)[k := review]
                     && (k in openRows ==> openRows[k].firstReview == Some(review))
                else r.value == Unchanged && firstReviews == old(firstReviews)
      ensures match Apply(old(View()), ReviewEvent(s, review))
              case Success(p) => r == Success(p.1) && View() == p.0
              case Failure(e) => r == Failure(e) && View() == old(View())
    {
      var saved := (watermarks, openRows, firstReviews, alerts);
      var advanced := AdvanceWatermark(s);
      if advanced {
        var ok := ApplySnapshotState(s);
        if !ok {
          watermarks, openRows, firstReviews, alerts := saved.0, saved.1, saved.2, saved.3;
          return Failure(UniqueViolation);
        }
      }
      if review.reviewerId == s.authorId {
        return Success(Ineligible);
      }
      var recorded := RecordFirstEligibleReview(s.Key(), review);
      if !recorded {
        return Success(Unchanged);
      }
      SyncFirstReviewToOpen(s.Key());
      return Success(Recorded);
    }

    /** One sweep: the outbox gains exactly the rows that are due and not yet there. */
    method CreateStaleAlerts(staleCutoff: int, createdAt: int) returns (inserted: nat)
      modifies this`alerts
      ensures View() == Step(old(View()), Sweep(staleCutoff, createdAt))
      ensures forall k :: k in alerts <==>
                k in old(alerts)
                || (k in openRows && openRows[k].openedAt <= staleCutoff && openRows[k].firstReview == None && !openRows[k].isDraft)
      ensures forall k | k in old(alerts) :: alerts[k] == old(alerts)[k]
      ensures forall k | k in alerts && k !in old(alerts) ::
                && alerts[k].pullRequestNumber == openRows[k].pullRequestNumber
                && alerts[k].createdAt == createdAt
                && alerts[k].repositoryFullName == openRows[k].repositoryFullName
                && alerts[k].title == openRows[k].title
                && alerts[k].authorLogin == openRows[k].authorLogin
                && alerts[k].openedAt == openRows[k].openedAt
                && alerts[k].staleCutoff == staleCutoff
                && alerts[k].status == Pending
      ensures |alerts| == |old(alerts)| + inserted
    {
      var created := map k | k in openRows && IsStale(openRows[k], staleCutoff) && k !in alerts
        :: NewAlert(openRows[k], staleCutoff, createdAt);
      assert (alerts + created).Keys == alerts.Keys + created.Keys;
      assert |(alerts + created).Keys| == |alerts.Keys| + |created.Keys|;
      alerts := alerts + created;
      inserted := |created|;
    }
  }
}
