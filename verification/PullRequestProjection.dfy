/**
 * What the three serving tables mean after any history of deliveries and sweeps: a closed
 * form, harmless replay, and the exact condition under which arrival order is irrelevant.
 */
module PullRequestProjection {
  import opened Wrappers
  import opened PullRequestTables

  /** The operation delivers a snapshot of this pull request, alone or with a review. */
  predicate Carries(op: Op, k: PrKey) {
    && op.Deliver?
    && op.event.snapshot.repositoryId == k.repositoryId
    && op.event.snapshot.pullRequestId == k.pullRequestId
  }

  /** The operation delivers a review of this pull request by someone else than its author. */
  predicate CarriesReview(op: Op, k: PrKey) {
    Carries(op, k) && op.event.ReviewEvent? && op.event.review.reviewerId != op.event.snapshot.authorId
  }

  ghost function EventsOf(h: seq<Op>): set<Event> {
    set op | op in h && op.Deliver? :: op.event
  }

  /** Within one repository a pull-request number belongs to one pull-request id. */
  ghost predicate NumbersIdentify(events: set<Event>) {
    forall e, f | e in events && f in events ::
      (e.snapshot.repositoryId == f.snapshot.repositoryId
       && e.snapshot.pullRequestNumber == f.snapshot.pullRequestNumber) ==> e.Key() == f.Key()
  }

  // ---------------------------------------------------------------- positions in a history

  /** Position i delivers the newest snapshot of k, and no earlier position ties with it. */
  ghost predicate IsLatest(h: seq<Op>, k: PrKey, i: int) {
    && 0 <= i < |h| && Carries(h[i], k)
    && forall j | 0 <= j < |h| && Carries(h[j], k) ::
         && h[j].event.snapshot.updatedAt <= h[i].event.snapshot.updatedAt
         && (j < i ==> h[j].event.snapshot.updatedAt < h[i].event.snapshot.updatedAt)
  }

  /** Position i delivers the earliest eligible review of k, and no earlier position ties with it. */
  ghost predicate IsEarliest(h: seq<Op>, k: PrKey, i: int) {
    && 0 <= i < |h| && CarriesReview(h[i], k)
    && forall j | 0 <= j < |h| && CarriesReview(h[j], k) ::
         && h[i].event.review.submittedAt <= h[j].event.review.submittedAt
         && (j < i ==> h[i].event.review.submittedAt < h[j].event.review.submittedAt)
  }

  // ---------------------------------------------------------------- running extremes

  function NextLatest(previous: Option<Snapshot>, op: Op, k: PrKey): Option<Snapshot> {
    if Carries(op, k) && (previous.Some? ==> op.event.snapshot.updatedAt > previous.value.updatedAt)
    then Some(op.event.snapshot)
    else previous
  }

  function NextEarliest(previous: Option<ReviewColumns>, op: Op, k: PrKey): Option<ReviewColumns> {
    if CarriesReview(op, k) && (previous.Some? ==> op.event.review.submittedAt < previous.value.submittedAt)
    then Some(op.event.review)
    else previous
  }

  function Latest(h: seq<Op>, k: PrKey): Option<Snapshot> {
    if h == [] then None else NextLatest(Latest(h[..|h| - 1], k), h[|h| - 1], k)
  }

  function Earliest(h: seq<Op>, k: PrKey): Option<ReviewColumns> {
    if h == [] then None else NextEarliest(Earliest(h[..|h| - 1], k), h[|h| - 1], k)
  }

  // The running extreme is the one at the extreme position, and that position is unique.

  lemma {:induction false} LatestAt(h: seq<Op>, k: PrKey) returns (i: int)
    requires Latest(h, k).Some?
    ensures IsLatest(h, k, i) && Latest(h, k) == Some(h[i].event.snapshot)
  {
    var n := |h| - 1;
    var p := h[..n];
    if Latest(h, k) == Latest(p, k) {
      i := LatestAt(p, k);
      assert forall j | 0 <= j < n :: h[j] == p[j];
    } else {
      i := n;
      if Latest(p, k).Some? {
        var m := LatestAt(p, k);
        assert forall j | 0 <= j < n :: h[j] == p[j];
      } else {
        LatestNoneMeansUnseen(p, k);
        assert forall j | 0 <= j < n :: h[j] == p[j];
      }
    }
  }

  lemma {:induction false} LatestNoneMeansUnseen(h: seq<Op>, k: PrKey)
    requires Latest(h, k).None?
    ensures forall j | 0 <= j < |h| :: !Carries(h[j], k)
  {
    if h != [] {
      var n := |h| - 1;
      LatestNoneMeansUnseen(h[..n], k);
      assert forall j | 0 <= j < n :: h[j] == h[..n][j];
    }
  }

  lemma {:induction false} EarliestAt(h: seq<Op>, k: PrKey) returns (i: int)
    requires Earliest(h, k).Some?
    ensures IsEarliest(h, k, i) && Earliest(h, k) == Some(h[i].event.review)
  {
    var n := |h| - 1;
    var p := h[..n];
    if Earliest(h, k) == Earliest(p, k) {
      i := EarliestAt(p, k);
      assert forall j | 0 <= j < n :: h[j] == p[j];
    } else {
      i := n;
      if Earliest(p, k).Some? {
        var m := EarliestAt(p, k);
        assert forall j | 0 <= j < n :: h[j] == p[j];
      } else {
        EarliestNoneMeansUnseen(p, k);
        assert forall j | 0 <= j < n :: h[j] == p[j];
      }
    }
  }

  lemma {:induction false} EarliestNoneMeansUnseen(h: seq<Op>, k: PrKey)
    requires Earliest(h, k).None?
    ensures forall j | 0 <= j < |h| :: !CarriesReview(h[j], k)
  {
    if h != [] {
      var n := |h| - 1;
      EarliestNoneMeansUnseen(h[..n], k);
      assert forall j | 0 <= j < n :: h[j] == h[..n][j];
    }
  }

  lemma LatestPosition(h: seq<Op>, k: PrKey)
    ensures Latest(h, k).Some? <==> exists j :: 0 <= j < |h| && Carries(h[j], k)
    ensures Latest(h, k).Some? ==> exists i :: IsLatest(h, k, i)
    ensures forall i | IsLatest(h, k, i) :: Latest(h, k) == Some(h[i].event.snapshot)
  {
    if Latest(h, k).Some? {
      var i := LatestAt(h, k);
      assert Carries(h[i], k);
      forall m | IsLatest(h, k, m)
        ensures m == i
      {
      }
    } else {
      LatestNoneMeansUnseen(h, k);
    }
  }

  lemma EarliestPosition(h: seq<Op>, k: PrKey)
    ensures Earliest(h, k).Some? <==> exists j :: 0 <= j < |h| && CarriesReview(h[j], k)
    ensures Earliest(h, k).Some? ==> exists i :: IsEarliest(h, k, i)
    ensures forall i | IsEarliest(h, k, i) :: Earliest(h, k) == Some(h[i].event.review)
  {
    if Earliest(h, k).Some? {
      var i := EarliestAt(h, k);
      assert CarriesReview(h[i], k);
      forall m | IsEarliest(h, k, m)
        ensures m == i
      {
      }
    } else {
      EarliestNoneMeansUnseen(h, k);
    }
  }

  // ---------------------------------------------------------------- closed form

  function RowOf(latest: Option<Snapshot>, earliest: Option<ReviewColumns>): Option<OpenRow> {
    match latest
    case Some(s) => if s.state.Open? then Some(Row(s, earliest)) else None
    case None => None
  }

  /** The three serving tables hold, at k, what the two extremes say. */
  predicate Projects(t: Tables, latest: Option<Snapshot>, earliest: Option<ReviewColumns>, k: PrKey) {
    && Lookup(t.watermarks, k) == (match latest
                                   case Some(s) => Some(Watermark(s.updatedAt, s.deliveryId))
                                   case None => None)
    && Lookup(t.openRows, k) == RowOf(latest, earliest)
    && Lookup(t.firstReviews, k) == earliest
  }

  lemma SnapshotProjects(t: Tables, latest: Option<Snapshot>, earliest: Option<ReviewColumns>, e: Event, k: PrKey)
    requires Projects(t, latest, earliest, k)
    ensures Projects(AfterSnapshot(t, e.snapshot), NextLatest(latest, Deliver(e), k), earliest, k)
  {
  }

  lemma ReviewProjects(t: Tables, latest: Option<Snapshot>, earliest: Option<ReviewColumns>, e: Event, k: PrKey)
    requires Projects(t, latest, earliest, k) && e.Eligible()
    ensures Projects(AfterReview(t, e.Key(), e.review), latest, NextEarliest(earliest, Deliver(e), k), k)
  {
  }

  lemma StepProjects(t: Tables, latest: Option<Snapshot>, earliest: Option<ReviewColumns>, op: Op, k: PrKey)
    requires Projects(t, latest, earliest, k)
    requires op.Deliver? ==> !Conflicts(t, op.event.snapshot)
    ensures Projects(Step(t, op), NextLatest(latest, op, k), NextEarliest(earliest, op, k), k)
  {
    if op.Deliver? {
      var e := op.event;
      SnapshotProjects(t, latest, earliest, e, k);
      if e.Eligible() {
        ReviewProjects(AfterSnapshot(t, e.snapshot), NextLatest(latest, op, k), earliest, e, k);
      }
    }
  }

  lemma OpenRowWasDelivered(t: Tables, h: seq<Op>, k: PrKey)
    requires Projects(t, Latest(h, k), Earliest(h, k), k) && k in t.openRows
    ensures exists e :: e in EventsOf(h) && e.Key() == k
                        && e.snapshot.pullRequestNumber == t.openRows[k].pullRequestNumber
  {
    assert Lookup(t.openRows, k).Some?;
    var i := LatestAt(h, k);
    assert h[i] in h && h[i].event in EventsOf(h);
  }

  /** Under identified numbers the unique constraint never rejects a delivery. */
  lemma NoConflict(t: Tables, h: seq<Op>, e: Event)
    requires NumbersIdentify(EventsOf(h) + {e})
    requires forall k :: Projects(t, Latest(h, k), Earliest(h, k), k)
    ensures !Conflicts(t, e.snapshot)
  {
    forall k | k in t.openRows && k.repositoryId == e.snapshot.repositoryId
               && t.openRows[k].pullRequestNumber == e.snapshot.pullRequestNumber
      ensures k == e.Key()
    {
      OpenRowWasDelivered(t, h, k);
    }
  }

  lemma {:induction false} RunProjects(h: seq<Op>, k: PrKey)
    requires NumbersIdentify(EventsOf(h))
    ensures Projects(Run(h), Latest(h, k), Earliest(h, k), k)
    decreases |h|
  {
    if h != [] {
      var p, op := h[..|h| - 1], h[|h| - 1];
      assert h == p + [op];
      assert EventsOf(p) <= EventsOf(h);
      forall k' ensures Projects(Run(p), Latest(p, k'), Earliest(p, k'), k') {
        RunProjects(p, k');
      }
      if op.Deliver? {
        assert EventsOf(h) == EventsOf(p) + {op.event};
        NoConflict(Run(p), p, op.event);
      }
      StepProjects(Run(p), Latest(p, k), Earliest(p, k), op, k);
    }
  }

  /**
   * Closed form: a PR has a watermark exactly when a snapshot of it was delivered; the watermark
   * is that of the newest snapshot (first arrival on ties); an open row exists exactly when that
   * snapshot is open, has its columns, and carries the earliest eligible review ever delivered,
   * whether or not its own snapshot was stale or closed.
   */
  lemma ClosedForm(h: seq<Op>, k: PrKey)
    requires NumbersIdentify(EventsOf(h))
    ensures k in Run(h).watermarks <==> exists j :: 0 <= j < |h| && Carries(h[j], k)
    ensures k in Run(h).watermarks ==> exists i :: IsLatest(h, k, i)
    ensures forall i | IsLatest(h, k, i) ::
      var s := h[i].event.snapshot;
      && k in Run(h).watermarks
      && Run(h).watermarks[k].lastEventAt == s.updatedAt
      && Run(h).watermarks[k].lastDeliveryId == s.deliveryId
      && (k in Run(h).openRows <==> s.state == Open)
    ensures forall i | IsLatest(h, k, i) && k in Run(h).openRows ::
      var s, row := h[i].event.snapshot, Run(h).openRows[k];
      && row.pullRequestNumber == s.pullRequestNumber
      && row.repositoryFullName == s.repositoryFullName
      && row.title == s.title
      && row.authorId == s.authorId
      && row.authorLogin == s.authorLogin
      && row.isDraft == s.isDraft
      && row.openedAt == s.openedAt
      && row.lastSourceUpdatedAt == s.updatedAt
      && row.firstReview == Lookup(Run(h).firstReviews, k)
    ensures k in Run(h).openRows ==> k in Run(h).watermarks
    ensures k in Run(h).firstReviews <==> exists j :: 0 <= j < |h| && CarriesReview(h[j], k)
    ensures k in Run(h).firstReviews ==> exists i :: IsEarliest(h, k, i)
    ensures forall i | IsEarliest(h, k, i) :: Lookup(Run(h).firstReviews, k) == Some(h[i].event.review)
  {
    RunProjects(h, k);
    LatestPosition(h, k);
    EarliestPosition(h, k);
  }

  // ---------------------------------------------------------------- replay

  /** The tables already contain everything the event could add. */
  predicate Absorbed(t: Tables, e: Event) {
    && !Advances(t, e.snapshot)
    && (e.Eligible() ==> !Precedes(t, e.Key(), e.review))
  }

  /** Applying an event changes nothing exactly when the tables have absorbed it or reject it. */
  lemma NoOpIffAbsorbed(t: Tables, e: Event)
    ensures Step(t, Deliver(e)) == t <==> Absorbed(t, e) || Conflicts(t, e.snapshot)
    ensures Absorbed(t, e) ==> Apply(t, e).Success? && Apply(t, e).value.1 in {Stale, Ineligible, Unchanged}
  {
    var k, t1 := e.Key(), AfterSnapshot(t, e.snapshot);
    if !Conflicts(t, e.snapshot) {
      if Advances(t, e.snapshot) {
        assert Step(t, Deliver(e)).watermarks[k].lastEventAt == e.snapshot.updatedAt;
      } else if e.Eligible() && Precedes(t1, k, e.review) {
        assert Step(t, Deliver(e)).firstReviews[k] == e.review;
      }
    }
  }

  ghost predicate Monotone(t: Tables, u: Tables, k: PrKey) {
    && (k in t.watermarks ==> k in u.watermarks && t.watermarks[k].lastEventAt <= u.watermarks[k].lastEventAt)
    && (k in t.firstReviews ==> k in u.firstReviews && u.firstReviews[k].submittedAt <= t.firstReviews[k].submittedAt)
  }

  lemma SnapshotIsMonotone(t: Tables, s: Snapshot, k: PrKey)
    ensures Monotone(t, AfterSnapshot(t, s), k)
  {
  }

  /** Watermarks only rise and first reviews only move earlier. */
  lemma StepIsMonotone(t: Tables, op: Op, k: PrKey)
    ensures Monotone(t, Step(t, op), k)
  {
    hide AfterSnapshot;
    if op.Deliver? {
      SnapshotIsMonotone(t, op.event.snapshot, k);
    }
  }

  lemma AbsorbedIsStable(t: Tables, op: Op, e: Event)
    requires Absorbed(t, e)
    ensures Absorbed(Step(t, op), e)
  {
    StepIsMonotone(t, op, e.Key());
  }

  lemma DeliveryIsAbsorbed(t: Tables, e: Event)
    requires !Conflicts(t, e.snapshot)
    ensures Absorbed(Step(t, Deliver(e)), e)
  {
  }

  lemma {:induction false} DeliveredIsAbsorbed(h: seq<Op>, i: nat)
    requires i < |h| && h[i].Deliver?
    requires !Conflicts(Run(h[..i]), h[i].event.snapshot)
    ensures Absorbed(Run(h), h[i].event)
  {
    var p := h[..|h| - 1];
    if i < |p| {
      assert p[..i] == h[..i];
      DeliveredIsAbsorbed(p, i);
      AbsorbedIsStable(Run(p), h[|h| - 1], h[i].event);
    } else {
      DeliveryIsAbsorbed(Run(p), h[i].event);
    }
  }

  /**
   * Replay: after any further deliveries and sweeps, an event that was once committed leaves all
   * four tables, alerts included, exactly as they are and reports a no-effect outcome.
   */
  lemma ReplayIsNoOp(h: seq<Op>, i: nat)
    requires i < |h| && h[i].Deliver?
    requires Apply(Run(h[..i]), h[i].event).Success?
    ensures Run(h + [h[i]]) == Run(h)
    ensures Apply(Run(h), h[i].event).Success?
    ensures Apply(Run(h), h[i].event).value.1 in {Stale, Ineligible, Unchanged}
  {
    DeliveredIsAbsorbed(h, i);
    NoOpIffAbsorbed(Run(h), h[i].event);
    assert (h + [h[i]])[..|h|] == h;
  }

  // ---------------------------------------------------------------- convergence

  /** Equal watermark times, open rows and first reviews; delivery ids are ignored. */
  ghost predicate SameProjection(t: Tables, u: Tables) {
    && t.watermarks.Keys == u.watermarks.Keys
    && (forall k | k in t.watermarks :: t.watermarks[k].lastEventAt == u.watermarks[k].lastEventAt)
    && t.openRows == u.openRows
    && t.firstReviews == u.firstReviews
  }

  ghost predicate IsNewest(events: set<Event>, e: Event) {
    && e in events
    && forall f | f in events && f.Key() == e.Key() :: f.snapshot.updatedAt <= e.snapshot.updatedAt
  }

  ghost predicate IsFirst(events: set<Event>, e: Event) {
    && e in events && e.Eligible()
    && forall f | f in events && f.Key() == e.Key() && f.Eligible() :: e.review.submittedAt <= f.review.submittedAt
  }

  /** Snapshots tied for newest project alike, and reviews tied for first are the same. */
  ghost predicate TieAgrees(events: set<Event>, e: Event, f: Event) {
    && (IsNewest(events, e) && IsNewest(events, f) ==>
          RowOf(Some(e.snapshot), None) == RowOf(Some(f.snapshot), None))
    && (IsFirst(events, e) && IsFirst(events, f) ==> e.review == f.review)
  }

  /** Ties below the newest snapshot and after the first review do not matter. */
  ghost predicate TiesAgree(events: set<Event>) {
    forall e, f | e in events && f in events && e.Key() == f.Key() :: TieAgrees(events, e, f)
  }

  lemma LatestIsNewest(h: seq<Op>, k: PrKey, i: int)
    requires IsLatest(h, k, i)
    ensures IsNewest(EventsOf(h), h[i].event)
  {
    assert h[i] in h;
  }

  lemma EarliestIsFirst(h: seq<Op>, k: PrKey, i: int)
    requires IsEarliest(h, k, i)
    ensures IsFirst(EventsOf(h), h[i].event)
  {
    assert h[i] in h;
  }

  lemma LatestNeedsOnlyEvents(h: seq<Op>, g: seq<Op>, k: PrKey)
    requires EventsOf(h) == EventsOf(g) && Latest(h, k).Some?
    ensures Latest(g, k).Some?
  {
    var i := LatestAt(h, k);
    assert h[i] in h && h[i].event in EventsOf(g);
    if Latest(g, k).None? {
      LatestNoneMeansUnseen(g, k);
    }
  }

  lemma EarliestNeedsOnlyEvents(h: seq<Op>, g: seq<Op>, k: PrKey)
    requires EventsOf(h) == EventsOf(g) && Earliest(h, k).Some?
    ensures Earliest(g, k).Some?
  {
    var i := EarliestAt(h, k);
    assert h[i] in h && h[i].event in EventsOf(g);
    if Earliest(g, k).None? {
      EarliestNoneMeansUnseen(g, k);
    }
  }

  lemma LatestAgrees(h: seq<Op>, g: seq<Op>, k: PrKey)
    requires EventsOf(h) == EventsOf(g) && TiesAgree(EventsOf(h))
    ensures Latest(h, k).Some? <==> Latest(g, k).Some?
    ensures Latest(h, k).Some? ==> Latest(h, k).value.updatedAt == Latest(g, k).value.updatedAt
    ensures RowOf(Latest(h, k), None) == RowOf(Latest(g, k), None)
  {
    if Latest(h, k).Some? {
      LatestNeedsOnlyEvents(h, g, k);
      var i := LatestAt(h, k);
      var j := LatestAt(g, k);
      LatestIsNewest(h, k, i);
      LatestIsNewest(g, k, j);
      assert TieAgrees(EventsOf(h), h[i].event, g[j].event);
    } else if Latest(g, k).Some? {
      LatestNeedsOnlyEvents(g, h, k);
    }
  }

  lemma EarliestAgrees(h: seq<Op>, g: seq<Op>, k: PrKey)
    requires EventsOf(h) == EventsOf(g) && TiesAgree(EventsOf(h))
    ensures Earliest(h, k) == Earliest(g, k)
  {
    if Earliest(h, k).Some? {
      EarliestNeedsOnlyEvents(h, g, k);
      var i := EarliestAt(h, k);
      var j := EarliestAt(g, k);
      EarliestIsFirst(h, k, i);
      EarliestIsFirst(g, k, j);
      assert TieAgrees(EventsOf(h), h[i].event, g[j].event);
    } else if Earliest(g, k).Some? {
      EarliestNeedsOnlyEvents(g, h, k);
    }
  }

  /**
   * The same events in any order, with any multiplicities and any sweeps in between, give the
   * same projection, as long as ties for an extreme agree.
   */
  lemma Converges(h: seq<Op>, g: seq<Op>)
    requires EventsOf(h) == EventsOf(g)
    requires NumbersIdentify(EventsOf(h)) && TiesAgree(EventsOf(h))
    ensures SameProjection(Run(h), Run(g))
  {
    forall k
      ensures k in Run(h).watermarks <==> k in Run(g).watermarks
      ensures k in Run(h).watermarks ==> Run(h).watermarks[k].lastEventAt == Run(g).watermarks[k].lastEventAt
      ensures Lookup(Run(h).openRows, k) == Lookup(Run(g).openRows, k)
      ensures Lookup(Run(h).firstReviews, k) == Lookup(Run(g).firstReviews, k)
    {
      RunProjects(h, k);
      RunProjects(g, k);
      LatestAgrees(h, g, k);
      EarliestAgrees(h, g, k);
    }
    SameLookups(Run(h).openRows, Run(g).openRows);
    SameLookups(Run(h).firstReviews, Run(g).firstReviews);
  }

  lemma SameLookups<K(!new), V>(m: map<K, V>, n: map<K, V>)
    requires forall k :: Lookup(m, k) == Lookup(n, k)
    ensures m == n
  {
    forall k ensures k in m <==> k in n {
      assert Lookup(m, k) == Lookup(n, k);
    }
    forall k | k in m ensures m[k] == n[k] {
      assert Lookup(m, k) == Lookup(n, k);
    }
  }

  /** Some order in which a finite set of events can arrive. */
  ghost function Enumerate(events: set<Event>): (h: seq<Op>)
    ensures EventsOf(h) == events
  {
    if events == {} then []
    else
      var e :| e in events;
      var rest := Enumerate(events - {e});
      assert EventsOf([Deliver(e)] + rest) == {e} + EventsOf(rest);
      [Deliver(e)] + rest
  }

  /** A history of exactly these events that starts with the chosen one. */
  ghost function StartingWith(events: set<Event>, e: Event): (h: seq<Op>)
    requires e in events
    ensures h != [] && h[0] == Deliver(e) && EventsOf(h) == events
  {
    assert EventsOf([Deliver(e)] + Enumerate(events)) == {e} + EventsOf(Enumerate(events));
    [Deliver(e)] + Enumerate(events)
  }

  lemma FirstArrivalWins(events: set<Event>, e: Event)
    requires e in events && NumbersIdentify(events)
    ensures IsNewest(events, e) ==> Latest(StartingWith(events, e), e.Key()) == Some(e.snapshot)
    ensures IsFirst(events, e) ==> Earliest(StartingWith(events, e), e.Key()) == Some(e.review)
  {
    var h := StartingWith(events, e);
    assert forall j | 0 <= j < |h| && h[j].Deliver? :: h[j] in h && h[j].event in EventsOf(h);
    LatestPosition(h, e.Key());
    EarliestPosition(h, e.Key());
    if IsNewest(events, e) {
      assert IsLatest(h, e.Key(), 0);
    }
    if IsFirst(events, e) {
      assert IsEarliest(h, e.Key(), 0);
    }
  }

  /** Two events that tie for an extreme but project differently make the outcome order-dependent. */
  lemma DisagreeingTieDiverges(events: set<Event>, e: Event, f: Event)
    requires NumbersIdentify(events)
    requires e in events && f in events && e.Key() == f.Key() && !TieAgrees(events, e, f)
    ensures !SameProjection(Run(StartingWith(events, e)), Run(StartingWith(events, f)))
  {
    var k := e.Key();
    FirstArrivalWins(events, e);
    FirstArrivalWins(events, f);
    RunProjects(StartingWith(events, e), k);
    RunProjects(StartingWith(events, f), k);
  }

  /** Arrival order is irrelevant for a set of events exactly when its ties for an extreme agree. */
  lemma ConvergesIffTiesAgree(events: set<Event>)
    requires NumbersIdentify(events)
    ensures TiesAgree(events)
      <==> forall h, g | EventsOf(h) == events && EventsOf(g) == events :: SameProjection(Run(h), Run(g))
  {
    if TiesAgree(events) {
      forall h, g | EventsOf(h) == events && EventsOf(g) == events
        ensures SameProjection(Run(h), Run(g))
      {
        Converges(h, g);
      }
    } else {
      var e, f :| e in events && f in events && e.Key() == f.Key() && !TieAgrees(events, e, f);
      DisagreeingTieDiverges(events, e, f);
    }
  }
}
