/** Safety of the stale-alert outbox over every interleaving of deliveries and sweeps. */
module AlertOutbox {
  import opened Wrappers
  import opened PullRequestTables
  import opened PullRequestProjection

  /** The operation is a sweep that finds k open since the cutoff or before, unreviewed and not a draft. */
  predicate FindsStale(t: Tables, op: Op, k: PrKey) {
    && op.Sweep? && k in t.openRows
    && t.openRows[k].openedAt <= op.cutoff
    && t.openRows[k].firstReview == None
    && !t.openRows[k].isDraft
  }

  ghost predicate SweptAt(h: seq<Op>, k: PrKey, i: int) {
    0 <= i < |h| && FindsStale(Run(h[..i]), h[i], k)
  }

  ghost predicate IsFirstSweep(h: seq<Op>, k: PrKey, i: int) {
    SweptAt(h, k, i) && forall j | 0 <= j < i :: !SweptAt(h, k, j)
  }

  /** After the first n operations the pull request has an open row. */
  ghost predicate OpenAfter(h: seq<Op>, k: PrKey, n: int) {
    0 <= n <= |h| && k in Run(h[..n]).openRows
  }

  /** The pull request has had an open row after every operation from position i on. */
  ghost predicate OpenSince(h: seq<Op>, k: PrKey, i: int) {
    forall n | i < n <= |h| :: OpenAfter(h, k, n)
  }

  lemma SnapshotEffect(t: Tables, s: Snapshot)
    ensures var u, k := AfterSnapshot(t, s), s.Key();
            && u.alerts == (if Advances(t, s) && s.state.Closed? then CancelPending(t.alerts, k) else t.alerts)
            && u.openRows.Keys == (if !Advances(t, s) then t.openRows.Keys
                                   else if s.state.Open? then t.openRows.Keys + {k}
                                   else t.openRows.Keys - {k})
  {
  }

  lemma ReviewEffect(t: Tables, k: PrKey, r: ReviewColumns)
    ensures AfterReview(t, k, r).alerts == t.alerts && AfterReview(t, k, r).openRows.Keys == t.openRows.Keys
  {
  }

  lemma DeliveryEffect(t: Tables, e: Event)
    ensures var u, k, acts := Step(t, Deliver(e)), e.Key(), Advances(t, e.snapshot) && !Conflicts(t, e.snapshot);
            && u.alerts == (if acts && e.snapshot.state.Closed? then CancelPending(t.alerts, k) else t.alerts)
            && u.openRows.Keys == (if !acts then t.openRows.Keys
                                   else if e.snapshot.state.Open? then t.openRows.Keys + {k}
                                   else t.openRows.Keys - {k})
  {
    hide AfterSnapshot, AfterReview;
    SnapshotEffect(t, e.snapshot);
    if e.Eligible() {
      ReviewEffect(AfterSnapshot(t, e.snapshot), e.Key(), e.review);
    }
  }

  /** One operation keeps a row, and cancels it exactly when it takes the open row away. */
  lemma StepKeepsAlert(t: Tables, op: Op, k: PrKey)
    requires k in t.alerts && (t.alerts[k].status.Pending? ==> k in t.openRows)
    ensures k in Step(t, op).alerts
    ensures Step(t, op).alerts[k] ==
            if k in Step(t, op).openRows then t.alerts[k] else t.alerts[k].(status := Cancelled)
  {
    if op.Deliver? {
      DeliveryEffect(t, op.event);
    }
  }

  /** In every reachable state a pending alert belongs to a pull request that is open now. */
  lemma {:induction false} PendingHasOpenRow(h: seq<Op>, k: PrKey)
    requires k in Run(h).alerts && Run(h).alerts[k].status.Pending?
    ensures k in Run(h).openRows
  {
    var p := h[..|h| - 1];
    if k in Run(p).alerts {
      if Run(p).alerts[k].status.Pending? {
        PendingHasOpenRow(p, k);
      }
      StepKeepsAlert(Run(p), h[|h| - 1], k);
    }
  }

  lemma SweptAtPrefix(h: seq<Op>, n: nat, k: PrKey, i: int)
    requires n <= |h| && i < n
    ensures SweptAt(h[..n], k, i) <==> SweptAt(h, k, i)
  {
    if 0 <= i {
      assert h[..n][..i] == h[..i];
    }
  }

  lemma StepAddsAlert(t: Tables, op: Op, k: PrKey)
    ensures k in Step(t, op).alerts <==> k in t.alerts || FindsStale(t, op, k)
  {
    if op.Deliver? {
      DeliveryEffect(t, op.event);
    }
  }

  lemma {:induction false} AlertWasSwept(h: seq<Op>, k: PrKey) returns (i: int)
    requires k in Run(h).alerts
    ensures SweptAt(h, k, i)
  {
    hide Step;
    var n := |h| - 1;
    StepAddsAlert(Run(h[..n]), h[n], k);
    if k in Run(h[..n]).alerts {
      i := AlertWasSwept(h[..n], k);
      SweptAtPrefix(h, n, k, i);
    } else {
      i := n;
    }
  }

  lemma {:induction false} SweptGivesAlert(h: seq<Op>, k: PrKey, i: int)
    requires SweptAt(h, k, i)
    ensures k in Run(h).alerts
  {
    hide Step;
    var n := |h| - 1;
    StepAddsAlert(Run(h[..n]), h[n], k);
    if i < n {
      SweptAtPrefix(h, n, k, i);
      SweptGivesAlert(h[..n], k, i);
    }
  }

  /** An outbox row exists exactly when some sweep has found the pull request stale. */
  lemma AlertIffSwept(h: seq<Op>, k: PrKey)
    ensures k in Run(h).alerts <==> exists i :: SweptAt(h, k, i)
  {
    hide Step;
    if k in Run(h).alerts {
      var i := AlertWasSwept(h, k);
    }
    forall i | SweptAt(h, k, i) ensures k in Run(h).alerts {
      SweptGivesAlert(h, k, i);
    }
  }

  lemma OpenAfterPrefix(h: seq<Op>, n: nat, k: PrKey, m: int)
    requires m <= n <= |h|
    ensures OpenAfter(h[..n], k, m) <==> OpenAfter(h, k, m)
  {
    if 0 <= m {
      assert h[..n][..m] == h[..m];
    }
  }

  lemma OpenSincePrefix(h: seq<Op>, k: PrKey, i: int)
    requires 0 <= i < |h| - 1
    ensures OpenSince(h, k, i) <==> OpenSince(h[..|h| - 1], k, i) && OpenAfter(h, k, |h|)
  {
    hide Step;
    var p := h[..|h| - 1];
    if OpenSince(h, k, i) {
      forall m | i < m <= |p| ensures OpenAfter(p, k, m) {
        assert OpenAfter(h, k, m);
        OpenAfterPrefix(h, |h| - 1, k, m);
      }
    }
    if OpenSince(p, k, i) && OpenAfter(h, k, |h|) {
      forall m | i < m <= |h| ensures OpenAfter(h, k, m) {
        if m < |h| {
          assert OpenAfter(p, k, m);
          OpenAfterPrefix(h, |h| - 1, k, m);
        }
      }
    }
  }

  /**
   * The whole life of an outbox row: its columns are those of the open row at the first sweep
   * that found it stale, no later operation rewrites them, and it is pending exactly as long as
   * the pull request has stayed open ever since; closing cancels it and reopening never revives it.
   */
  lemma {:induction false} AlertLife(h: seq<Op>, k: PrKey, i: nat)
    requires IsFirstSweep(h, k, i)
    ensures k in Run(h).alerts
    ensures var alert, row := Run(h).alerts[k], Run(h[..i]).openRows[k];
            && alert.pullRequestNumber == row.pullRequestNumber
            && alert.createdAt == h[i].createdAt
            && alert.repositoryFullName == row.repositoryFullName
            && alert.title == row.title
            && alert.authorLogin == row.authorLogin
            && alert.openedAt == row.openedAt
            && alert.staleCutoff == h[i].cutoff
            && alert.status == if OpenSince(h, k, i) then Pending else Cancelled
  {
    var n := |h| - 1;
    var p := h[..n];
    if i == n {
      AlertIffSwept(p, k);
      forall j ensures !SweptAt(p, k, j) {
        if 0 <= j < n {
          SweptAtPrefix(h, n, k, j);
        }
      }
      assert h[..|h|] == h;
      assert Run(h).openRows == Run(p).openRows;
    } else {
      forall j | j <= i ensures SweptAt(p, k, j) <==> SweptAt(h, k, j) {
        SweptAtPrefix(h, n, k, j);
      }
      AlertLife(p, k, i);
      assert p[..i] == h[..i];
      OpenSincePrefix(h, k, i);
      assert h[..|h|] == h;
      if Run(p).alerts[k].status.Pending? {
        PendingHasOpenRow(p, k);
      }
      StepKeepsAlert(Run(p), h[n], k);
    }
  }

  /** No eligible review of the pull request had been delivered when its alert was created. */
  lemma AlertedWhileUnreviewed(h: seq<Op>, k: PrKey, i: nat)
    requires SweptAt(h, k, i) && NumbersIdentify(EventsOf(h))
    ensures forall j | 0 <= j < i :: !CarriesReview(h[j], k)
  {
    var p := h[..i];
    assert EventsOf(p) <= EventsOf(h);
    RunProjects(p, k);
    assert Lookup(Run(p).openRows, k).Some?;
    EarliestNoneMeansUnseen(p, k);
    assert forall j | 0 <= j < i :: h[j] == p[j];
  }

  /** Between any two moments rows only appear and only move from pending to cancelled. */
  ghost predicate Evolves(before: map<PrKey, Alert>, after: map<PrKey, Alert>) {
    forall k | k in before :: k in after
                              && after[k] in {before[k], before[k].(status := Cancelled)}
  }

  lemma {:induction false} OutboxEvolves(h: seq<Op>, i: nat)
    requires i <= |h|
    ensures Evolves(Run(h[..i]).alerts, Run(h).alerts)
  {
    if i == |h| {
      assert h[..i] == h;
    } else {
      var p := h[..|h| - 1];
      assert p[..i] == h[..i];
      OutboxEvolves(p, i);
      forall k | k in Run(p).alerts
        ensures k in Run(h).alerts && Run(h).alerts[k] in {Run(p).alerts[k], Run(p).alerts[k].(status := Cancelled)}
      {
        if Run(p).alerts[k].status.Pending? {
          PendingHasOpenRow(p, k);
        }
        StepKeepsAlert(Run(p), h[|h| - 1], k);
      }
    }
  }

  /** What all sweeps of a history returned, added up. */
  ghost function SweepTotal(h: seq<Op>): nat {
    if h == [] then 0
    else
      var p, op := h[..|h| - 1], h[|h| - 1];
      SweepTotal(p) + if op.Sweep? then |NewAlerts(Run(p), op.cutoff, op.createdAt)| else 0
  }

  lemma SweepAddsItsCount(t: Tables, cutoff: int, createdAt: int)
    ensures |Step(t, Sweep(cutoff, createdAt)).alerts| == |t.alerts| + |NewAlerts(t, cutoff, createdAt)|
  {
    var created := NewAlerts(t, cutoff, createdAt);
    assert (t.alerts + created).Keys == t.alerts.Keys + created.Keys;
    assert |(t.alerts + created).Keys| == |t.alerts.Keys| + |created.Keys|;
  }

  lemma DeliveryAddsNoAlert(t: Tables, e: Event)
    ensures Step(t, Deliver(e)).alerts.Keys == t.alerts.Keys
    ensures |Step(t, Deliver(e)).alerts| == |t.alerts|
  {
    var after := Step(t, Deliver(e)).alerts;
    DeliveryEffect(t, e);
    assert after.Keys == t.alerts.Keys;
    assert |after.Keys| == |t.alerts.Keys|;
  }

  /** The sweeps together report exactly as many insertions as there are outbox rows. */
  lemma {:induction false} SweepsCountRows(h: seq<Op>)
    ensures SweepTotal(h) == |Run(h).alerts|
  {
    if h != [] {
      var p, op := h[..|h| - 1], h[|h| - 1];
      SweepsCountRows(p);
      match op
      case Sweep(cutoff, createdAt) => SweepAddsItsCount(Run(p), cutoff, createdAt);
      case Deliver(e) => DeliveryAddsNoAlert(Run(p), e);
    }
  }
}
