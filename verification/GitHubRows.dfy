/** What a completed pull-request traversal has stored, in terms of the listed nodes' own fields. */
module GitHubRows {
  import opened Wrappers
  import opened RawEvents
  import opened BackfillStorage
  import opened BackfillProgress
  import opened BackfillRuns
  import opened GitHubListing
  import opened GitHubBackfill

  /** Pull request i lies in the half-open window, and none listed before it lies at or beyond the window end. */
  ghost predicate Traverses(cfg: Config, prs: seq<PullRequestNode>, i: int) {
    && 0 <= i < |prs|
    && cfg.windowStart <= prs[i].createdAt < cfg.windowEnd
    && forall j | 0 <= j < i :: prs[j].createdAt < cfg.windowEnd
  }

  lemma TraversesIff(cfg: Config, prs: seq<PullRequestNode>, i: int)
    ensures Traverses(cfg, prs, i) <==> 0 <= i < Cut(prs, cfg) && cfg.InWindow(prs[i].createdAt)
  {
    CutIsFirst(prs, cfg);
  }

  ghost predicate IsPullRequestRow(cfg: Config, node: PullRequestNode, k: RawKey, row: RawRow) {
    && k == RawKey(Backfill, PullRequestKey(node.id, node.updatedAt))
    && HasColumns(row, cfg, "pull_request", node.state, node.createdAt, node.json, None)
  }

  /** A review happened when it was submitted, or else last updated; a commit when it was committed. */
  ghost predicate IsChildRow(cfg: Config, pullRequestId: string, child: NestedNode, k: RawKey, row: RawRow) {
    match child
    case ReviewNode(id, state, submittedAt, updatedAt, json) =>
      && k == RawKey(Backfill, ReviewKey(id, state))
      && HasColumns(row, cfg, "pull_request_review", state,
                    if submittedAt.Some? then submittedAt.value else updatedAt, json, Some(PullRequestParent(pullRequestId)))
    case CommitNode(associationId, committedAt, json) =>
      && k == RawKey(Backfill, CommitKey(associationId))
      && HasColumns(row, cfg, "pull_request_commit", "associated", committedAt, json, Some(PullRequestParent(pullRequestId)))
  }

  ghost predicate IsChild(listing: Listing, pullRequestId: string, child: NestedNode) {
    exists c: Connection :: (c, pullRequestId) in listing.nested && child in listing.nested[(c, pullRequestId)]
  }

  /** The identity under which a child is stored. */
  ghost function ChildKey(child: NestedNode): RawKey {
    match child
    case ReviewNode(id, state, _, _, _) => RawKey(Backfill, ReviewKey(id, state))
    case CommitNode(associationId, _, _) => RawKey(Backfill, CommitKey(associationId))
  }

  lemma ChildRecord(cfg: Config, pullRequestId: string, child: NestedNode)
    ensures var r := NestedRecord(cfg, pullRequestId, child);
            r.Key() == ChildKey(child) && IsChildRow(cfg, pullRequestId, child, r.Key(), r.Row())
  {
  }

  lemma NodeRecord(cfg: Config, node: PullRequestNode)
    ensures var r := PullRequestRecord(cfg, node);
            && r.Key() == RawKey(Backfill, PullRequestKey(node.id, node.updatedAt))
            && IsPullRequestRow(cfg, node, r.Key(), r.Row())
  {
  }

  /** Every listed pull request that the traversal reaches is stored under its identity, and so is each of its children. */
  lemma CompletedHoldsListed(cfg: Config, listing: Listing, base: RawTable, s: Store)
    requires Inv(cfg, listing, base, s) && IsCompleted(s, OuterKey(cfg))
    ensures forall i | Traverses(cfg, listing.pullRequests, i) ::
              RawKey(Backfill, PullRequestKey(listing.pullRequests[i].id, listing.pullRequests[i].updatedAt)) in s.raw
    ensures forall i, child | Traverses(cfg, listing.pullRequests, i) && IsChild(listing, listing.pullRequests[i].id, child) ::
              ChildKey(child) in s.raw
  {
    hide Inv, IsCompleted, Cut, ChildKey, NestedRecord, PullRequestRecord, Traversed;
    var prs := listing.pullRequests;
    forall i | Traverses(cfg, prs, i)
      ensures RawKey(Backfill, PullRequestKey(prs[i].id, prs[i].updatedAt)) in s.raw
    {
      TraversesIff(cfg, prs, i);
      TraversedHas(prs, cfg, prs[i]);
      NodeRecord(cfg, prs[i]);
      assert Belongs(cfg, listing, prs[i], PullRequestRecord(cfg, prs[i]));
      ExpectedIsStored(cfg, listing, base, s, PullRequestRecord(cfg, prs[i]));
    }
    forall i, child | Traverses(cfg, prs, i) && IsChild(listing, prs[i].id, child) ensures ChildKey(child) in s.raw {
      TraversesIff(cfg, prs, i);
      TraversedHas(prs, cfg, prs[i]);
      ChildRecord(cfg, prs[i].id, child);
      ChildBelongs(cfg, listing, prs[i], child);
      ExpectedIsStored(cfg, listing, base, s, NestedRecord(cfg, prs[i].id, child));
    }
  }

  lemma ChildBelongs(cfg: Config, listing: Listing, node: PullRequestNode, child: NestedNode)
    requires IsChild(listing, node.id, child)
    ensures Belongs(cfg, listing, node, NestedRecord(cfg, node.id, child))
  {
    var c: Connection :| (c, node.id) in listing.nested && child in listing.nested[(c, node.id)];
    var items := listing.Items(c, node.id);
    var j :| 0 <= j < |items| && items[j] == child;
    assert NestedRecords(cfg, node.id, items)[j] == NestedRecord(cfg, node.id, child);
  }

  /** Some pull request that the traversal reaches, or a child of one, has this identity and these columns. */
  ghost predicate IsListedRow(cfg: Config, listing: Listing, k: RawKey, row: RawRow) {
    exists i | Traverses(cfg, listing.pullRequests, i) :: RowOfNode(cfg, listing, listing.pullRequests[i], k, row)
  }

  ghost predicate RowOfNode(cfg: Config, listing: Listing, node: PullRequestNode, k: RawKey, row: RawRow) {
    || IsPullRequestRow(cfg, node, k, row)
    || exists child :: IsChild(listing, node.id, child) && IsChildRow(cfg, node.id, child, k, row)
  }

  /** Every backfilled row that is new since the start has the identity and every column of a listed node. */
  lemma NewRowsAreListed(cfg: Config, listing: Listing, base: RawTable, s: Store)
    requires Inv(cfg, listing, base, s)
    ensures forall k | k in s.raw && k !in base && k.source.Backfill? :: IsListedRow(cfg, listing, k, s.raw[k])
  {
    hide NestedOk, OuterOk, Expected;
    forall k | k in s.raw && k !in base && k.source.Backfill? ensures IsListedRow(cfg, listing, k, s.raw[k]) {
      var r :| r in Wanted(cfg, listing) && r.Key() == k && r.Row() == s.raw[k];
      ExpectedIsListed(cfg, listing, r);
    }
  }

  lemma ExpectedIsListed(cfg: Config, listing: Listing, r: BackfillRecord)
    requires Expected(cfg, listing, r)
    ensures IsListedRow(cfg, listing, r.Key(), r.Row())
  {
    hide Traverses, Cut, Traversed, IsPullRequestRow, IsChildRow, NestedRecord, PullRequestRecord;
    var prs := listing.pullRequests;
    var node :| node in Traversed(prs, cfg) && Belongs(cfg, listing, node, r);
    TraversedHas(prs, cfg, node);
    var i :| 0 <= i < Cut(prs, cfg) && cfg.InWindow(prs[i].createdAt) && prs[i] == node;
    TraversesIff(cfg, prs, i);
    if r == PullRequestRecord(cfg, node) {
      NodeRecord(cfg, node);
    } else {
      var c: Connection :| r in NestedRecords(cfg, node.id, listing.Items(c, node.id));
      var j :| 0 <= j < |listing.Items(c, node.id)| && r == NestedRecords(cfg, node.id, listing.Items(c, node.id))[j];
      var child := listing.Items(c, node.id)[j];
      ChildRecord(cfg, node.id, child);
      assert IsChild(listing, node.id, child);
    }
    assert RowOfNode(cfg, listing, prs[i], r.Key(), r.Row());
  }
}
