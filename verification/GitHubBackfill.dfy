/** Nested page loops with a checkpoint each: an outer page is committed after the child loops of its pull requests. */
module GitHubBackfill {
  import opened Wrappers
  import opened Arithmetic
  import opened RawEvents
  import opened BackfillStorage
  import opened BackfillSummary
  import opened BackfillProgress
  import opened BackfillRuns
  import opened GitHubListing

  datatype BackfillError = InvalidWindow | RequestFailed | MalformedPage | StorageFailed

  // ---------------------------------------------------------------- what a window asks for

  /** The records of a pull request: its own and those of its reviews and commits. */
  ghost predicate Belongs(cfg: Config, listing: Listing, node: PullRequestNode, r: BackfillRecord) {
    || r == PullRequestRecord(cfg, node)
    || exists c: Connection :: r in NestedRecords(cfg, node.id, listing.Items(c, node.id))
  }

  /** The records of the pull requests that a traversal with the early cut-off selects. */
  ghost predicate Expected(cfg: Config, listing: Listing, r: BackfillRecord) {
    exists node | node in Traversed(listing.pullRequests, cfg) :: Belongs(cfg, listing, node, r)
  }

  /** The records of all pull requests in the half-open window. */
  ghost predicate InWindowRecord(cfg: Config, listing: Listing, r: BackfillRecord) {
    exists node | node in Filtered(listing.pullRequests, cfg) :: Belongs(cfg, listing, node, r)
  }

  ghost function Wanted(cfg: Config, listing: Listing): iset<BackfillRecord> { iset r | Expected(cfg, listing, r) }

  ghost predicate TraversedId(cfg: Config, listing: Listing, id: string) {
    exists node | node in Traversed(listing.pullRequests, cfg) :: node.id == id
  }

  // ---------------------------------------------------------------- the restart invariant

  /** A checkpoint never claims more than what is stored: a prefix, or all when completed. */
  ghost predicate NestedOk(cfg: Config, listing: Listing, s: Store, c: Connection, id: string) {
    var key, records := NestedKey(cfg, c, id), NestedRecords(cfg, id, listing.Items(c, id));
    key in s.checkpoints ==>
      match s.checkpoints[key].status
      case Completed => Covered(s.raw, records)
      case InProgress =>
        match s.checkpoints[key].cursor
        case Some(EndCursor(n)) => n <= |records| && Covered(s.raw, records[..n])
        case _ => false
  }

  /** The pull request's row is stored and both child traversals are completed. */
  ghost predicate Done(cfg: Config, s: Store, node: PullRequestNode) {
    && PullRequestRecord(cfg, node).Key() in s.raw
    && IsCompleted(s, NestedKey(cfg, Reviews, node.id))
    && IsCompleted(s, NestedKey(cfg, Commits, node.id))
  }

  ghost predicate DoneUpTo(cfg: Config, listing: Listing, s: Store, n: nat)
    requires n <= |listing.pullRequests|
  {
    forall i | 0 <= i < n && cfg.InWindow(listing.pullRequests[i].createdAt) :: Done(cfg, s, listing.pullRequests[i])
  }

  /** An outer page is only ever committed once every pull request on it is done. */
  ghost predicate OuterOk(cfg: Config, listing: Listing, s: Store) {
    var key, cut := OuterKey(cfg), Cut(listing.pullRequests, cfg);
    key in s.checkpoints ==>
      match s.checkpoints[key].status
      case Completed => DoneUpTo(cfg, listing, s, cut)
      case InProgress =>
        match s.checkpoints[key].cursor
        case Some(EndCursor(n)) => n <= cut && DoneUpTo(cfg, listing, s, n)
        case _ => false
  }

  /**
   * What holds after any number of crashes and restarts.  Base is the table before the first run
   * together with what other traversals have added since.
   */
  ghost predicate Inv(cfg: Config, listing: Listing, base: RawTable, s: Store) {
    && NoExtras(Wanted(cfg, listing), base, s.raw)
    && (forall c, id :: NestedOk(cfg, listing, s, c, id))
    && OuterOk(cfg, listing, s)
  }

  /** Before the first run on this window nothing is claimed. */
  lemma FreshStart(cfg: Config, listing: Listing, s: Store)
    requires forall k | k in s.checkpoints :: !OwnKey(cfg, GRAPHQL_RESOURCES, k)
    ensures Inv(cfg, listing, s.raw, s)
  {
  }

  // ---------------------------------------------------------------- what other writers leave intact

  /** The table grew, and no child traversal of this window lost its completion. */
  ghost predicate Keeps(cfg: Config, s: Store, t: Store) {
    && Grows(s.raw, t.raw)
    && forall c, id :: IsCompleted(s, NestedKey(cfg, c, id)) ==> IsCompleted(t, NestedKey(cfg, c, id))
  }

  lemma LaterKeeps(cfg: Config, s: Store, t: Store)
    requires Later(s, t)
    ensures Keeps(cfg, s, t)
  {
  }

  lemma KeepsDone(cfg: Config, listing: Listing, s: Store, t: Store, n: nat)
    requires Keeps(cfg, s, t) && n <= |listing.pullRequests| && DoneUpTo(cfg, listing, s, n)
    ensures DoneUpTo(cfg, listing, t, n)
  {
  }

  lemma NestedOkSurvives(cfg: Config, listing: Listing, s: Store, t: Store, c: Connection, id: string)
    requires NestedOk(cfg, listing, s, c, id) && Grows(s.raw, t.raw)
    requires Lookup(s.checkpoints, NestedKey(cfg, c, id)) == Lookup(t.checkpoints, NestedKey(cfg, c, id))
    ensures NestedOk(cfg, listing, t, c, id)
  {
  }

  lemma OuterOkSurvives(cfg: Config, listing: Listing, s: Store, t: Store)
    requires OuterOk(cfg, listing, s) && Keeps(cfg, s, t)
    requires Lookup(s.checkpoints, OuterKey(cfg)) == Lookup(t.checkpoints, OuterKey(cfg))
    ensures OuterOk(cfg, listing, t)
  {
    hide Keeps, Done;
    var key := OuterKey(cfg);
    if key in s.checkpoints {
      match s.checkpoints[key].status
      case Completed => KeepsDone(cfg, listing, s, t, Cut(listing.pullRequests, cfg));
      case InProgress =>
        match s.checkpoints[key].cursor
        case Some(EndCursor(n)) => KeepsDone(cfg, listing, s, t, n);
    }
  }

  /** Checkpoints of this window's traversals are as they were. */
  ghost predicate SameClaims(cfg: Config, s: Store, t: Store) {
    && Lookup(s.checkpoints, OuterKey(cfg)) == Lookup(t.checkpoints, OuterKey(cfg))
    && forall c, id :: Lookup(s.checkpoints, NestedKey(cfg, c, id)) == Lookup(t.checkpoints, NestedKey(cfg, c, id))
  }

  lemma ClaimsSurvive(cfg: Config, listing: Listing, s: Store, t: Store)
    requires (forall c, id :: NestedOk(cfg, listing, s, c, id)) && OuterOk(cfg, listing, s)
    requires SameClaims(cfg, s, t) && Grows(s.raw, t.raw)
    ensures (forall c, id :: NestedOk(cfg, listing, t, c, id)) && OuterOk(cfg, listing, t)
  {
    hide NestedOk, OuterOk, Grows;
    forall c, id ensures NestedOk(cfg, listing, t, c, id) {
      NestedOkSurvives(cfg, listing, s, t, c, id);
    }
    assert Keeps(cfg, s, t) by {
      forall c, id ensures IsCompleted(s, NestedKey(cfg, c, id)) ==> IsCompleted(t, NestedKey(cfg, c, id)) {
        assert Lookup(s.checkpoints, NestedKey(cfg, c, id)) == Lookup(t.checkpoints, NestedKey(cfg, c, id));
      }
    }
    OuterOkSurvives(cfg, listing, s, t);
  }

  /** Webhook rows may land at any moment. */
  lemma ArrivalsKeepInv(cfg: Config, listing: Listing, base: RawTable, s: Store, t: Store)
    requires Inv(cfg, listing, base, s) && Arrived(s, t)
    ensures Inv(cfg, listing, base, t)
  {
    hide NestedOk, OuterOk, Wanted;
    ArrivedHasNoExtras(Wanted(cfg, listing), base, s, t);
    ClaimsSurvive(cfg, listing, s, t);
  }

  /** Other traversals may write between two starts; their rows do not count as this window's own. */
  lemma ForeignKeepsInv(cfg: Config, listing: Listing, base: RawTable, s: Store, w: Write)
    requires Inv(cfg, listing, base, s) && Foreign(cfg, GRAPHQL_RESOURCES, w)
    ensures var t := AfterWrite(s, w);
            && Inv(cfg, listing, Widened(base, s.raw, t.raw), t)
            && SameClaims(cfg, s, t)
  {
    hide NestedOk, OuterOk, Wanted, AfterWrite, NoExtras, Widened;
    WriteGrows(s, w);
    WidenedHasNoExtras(Wanted(cfg, listing), base, s.raw, AfterWrite(s, w).raw);
    ClaimsSurvive(cfg, listing, s, AfterWrite(s, w));
  }

  // ---------------------------------------------------------------- children of the nodes of one page

  /** Both child traversals of every in-window pull request among these nodes are completed. */
  ghost predicate ChildrenCompleted(cfg: Config, s: Store, nodes: seq<PullRequestNode>) {
    forall i | 0 <= i < |nodes| && cfg.InWindow(nodes[i].createdAt) ::
      IsCompleted(s, NestedKey(cfg, Reviews, nodes[i].id)) && IsCompleted(s, NestedKey(cfg, Commits, nodes[i].id))
  }

  lemma NoChildren(cfg: Config, s: Store)
    ensures ChildrenCompleted(cfg, s, [])
  {
  }

  lemma LaterKeepsChildren(cfg: Config, s: Store, t: Store, nodes: seq<PullRequestNode>)
    requires Later(s, t) && ChildrenCompleted(cfg, s, nodes)
    ensures ChildrenCompleted(cfg, t, nodes)
  {
  }

  lemma ChildrenAppend(cfg: Config, s: Store, nodes: seq<PullRequestNode>, node: PullRequestNode)
    requires ChildrenCompleted(cfg, s, nodes)
    requires cfg.InWindow(node.createdAt) ==>
               IsCompleted(s, NestedKey(cfg, Reviews, node.id)) && IsCompleted(s, NestedKey(cfg, Commits, node.id))
    ensures ChildrenCompleted(cfg, s, nodes + [node])
  {
  }

  lemma CandidatesAppend(cfg: Config, nodes: seq<PullRequestNode>, node: PullRequestNode)
    ensures Chosen(Candidates(cfg, nodes + [node])) ==
            Chosen(Candidates(cfg, nodes)) + if cfg.InWindow(node.createdAt) then [PullRequestRecord(cfg, node)] else []
  {
    assert Candidates(cfg, nodes + [node]) == Candidates(cfg, nodes) + [Candidate(cfg, node)];
    ChosenAppend(Candidates(cfg, nodes), Candidate(cfg, node));
  }

  lemma CandidatesRepository(cfg: Config, nodes: seq<PullRequestNode>)
    ensures forall r | r in Chosen(Candidates(cfg, nodes)) :: r.repositoryId == cfg.repositoryId
  {
    forall r | r in Chosen(Candidates(cfg, nodes)) ensures r.repositoryId == cfg.repositoryId {
      ChosenHas(Candidates(cfg, nodes), r);
    }
  }

  // ---------------------------------------------------------------- positions in the frozen listing

  /** The nodes are those of the listing from position n on, and the traversal got that far. */
  ghost predicate PageAt(cfg: Config, listing: Listing, n: nat, nodes: seq<PullRequestNode>) {
    var prs := listing.pullRequests;
    n <= Cut(prs, cfg) && n + |nodes| <= |prs| && nodes == prs[n..n + |nodes|]
  }

  lemma PageFollows(cfg: Config, listing: Listing, n: nat, size: nat, nodes: seq<PullRequestNode>)
    requires n <= Cut(listing.pullRequests, cfg)
    requires nodes == listing.pullRequests[n..Min(n + size, |listing.pullRequests|)]
    ensures PageAt(cfg, listing, n, nodes)
  {
  }

  lemma NodeIsTraversed(cfg: Config, listing: Listing, n: nat, nodes: seq<PullRequestNode>, i: nat)
    requires PageAt(cfg, listing, n, nodes) && i < |nodes| && cfg.InWindow(nodes[i].createdAt)
    requires forall j | 0 <= j < i :: nodes[j].createdAt < cfg.windowEnd
    ensures TraversedId(cfg, listing, nodes[i].id)
  {
    var prs := listing.pullRequests;
    CutIsFirst(prs, cfg);
    assert forall j | n <= j <= n + i :: prs[j] == nodes[j - n];
    TraversedHas(prs, cfg, nodes[i]);
    assert prs[n + i] == nodes[i];
  }

  /** A page whose nodes were taken up to the cut-off or the listing's end reaches exactly the cut. */
  lemma PageIsReady(cfg: Config, listing: Listing, n: nat, taken: nat, nodes: seq<PullRequestNode>)
    requires PageAt(cfg, listing, n, nodes) && taken <= |nodes|
    requires forall i | 0 <= i < taken :: nodes[i].createdAt < cfg.windowEnd
    requires taken < |nodes| ==> nodes[taken].createdAt >= cfg.windowEnd
    ensures n + taken <= Cut(listing.pullRequests, cfg)
    ensures nodes[..taken] == listing.pullRequests[n..n + taken]
    ensures taken < |nodes| || n + taken == |listing.pullRequests| ==> n + taken == Cut(listing.pullRequests, cfg)
  {
    var prs := listing.pullRequests;
    CutIsFirst(prs, cfg);
    assert forall j | n <= j < n + |nodes| :: prs[j] == nodes[j - n];
  }

  /** What a faithful client may answer at a valid position. */
  lemma NestedReply(script: Script, listing: Listing, t: nat, c: Connection, id: string, size: nat, cursor: Option<Cursor>, n: nat)
    requires Faithful(script, listing) && Start(cursor) == Some(n) && n <= |listing.Items(c, id)| && 1 <= size
    ensures var items := listing.Items(c, id);
            var reply, end := script.nested(t, c, id, size, cursor), Min(n + size, |items|);
            && (Uninterrupted(script, listing) ==> reply.Page?)
            && (reply.Page? ==>
                  && reply.nodes == items[n..end]
                  && reply.hasNextPage == (end < |items|)
                  && (reply.hasNextPage ==> reply.endCursor == Some(EndCursor(end)) && end > n))
  {
  }

  lemma OuterReply(script: Script, listing: Listing, t: nat, size: nat, cursor: Option<Cursor>, n: nat)
    requires Faithful(script, listing) && Start(cursor) == Some(n) && n <= |listing.pullRequests| && 1 <= size
    ensures var items := listing.pullRequests;
            var reply, end := script.pullRequests(t, size, cursor), Min(n + size, |items|);
            && (Uninterrupted(script, listing) ==> reply.Page?)
            && (reply.Page? ==>
                  && reply.nodes == items[n..end]
                  && reply.hasNextPage == (end < |items|)
                  && (reply.hasNextPage ==> reply.endCursor == Some(EndCursor(end)) && end > n))
  {
  }

  /** The position a traversal resumes at; a completed one is not resumed. */
  ghost predicate ResumesAt(s: Store, key: RunKey, n: nat) {
    if key in s.checkpoints
    then s.checkpoints[key].status.InProgress? && s.checkpoints[key].cursor == Some(EndCursor(n))
    else n == 0
  }

  lemma ResumesAtIsLookup(s: Store, t: Store, key: RunKey, n: nat)
    requires ResumesAt(s, key, n) && Lookup(s.checkpoints, key) == Lookup(t.checkpoints, key)
    ensures ResumesAt(t, key, n)
  {
  }

  lemma CompletedIsLookup(s: Store, t: Store, key: RunKey)
    requires Lookup(s.checkpoints, key) == Lookup(t.checkpoints, key)
    ensures IsCompleted(s, key) <==> IsCompleted(t, key)
  {
  }

  lemma NestedResumes(cfg: Config, listing: Listing, base: RawTable, s: Store, c: Connection, id: string, cursor: Option<Cursor>)
    returns (n: nat)
    requires Inv(cfg, listing, base, s) && !IsCompleted(s, NestedKey(cfg, c, id))
    requires cursor == if NestedKey(cfg, c, id) in s.checkpoints then s.checkpoints[NestedKey(cfg, c, id)].cursor else None
    ensures n <= |listing.Items(c, id)| && Start(cursor) == Some(n) && ResumesAt(s, NestedKey(cfg, c, id), n)
  {
    assert NestedOk(cfg, listing, s, c, id);
    n := Start(cursor).value;
  }

  lemma OuterResumes(cfg: Config, listing: Listing, base: RawTable, s: Store, cursor: Option<Cursor>) returns (n: nat)
    requires Inv(cfg, listing, base, s) && !IsCompleted(s, OuterKey(cfg))
    requires cursor == if OuterKey(cfg) in s.checkpoints then s.checkpoints[OuterKey(cfg)].cursor else None
    ensures n <= Cut(listing.pullRequests, cfg) && Start(cursor) == Some(n) && ResumesAt(s, OuterKey(cfg), n)
  {
    n := Start(cursor).value;
  }

  // ---------------------------------------------------------------- one committed page

  /** The next cursor after the items up to end; none once the listing is exhausted. */
  function NextCursor(end: nat, length: nat): Option<Cursor> { if end < length then Some(EndCursor(end)) else None }

  /** The checkpoint of the traversal itself claims exactly one page more than before. */
  lemma NestedPageIsOk(cfg: Config, listing: Listing, s: Store, c: Connection, id: string, n: nat, end: nat)
    requires NestedOk(cfg, listing, s, c, id)
    requires n <= end <= |listing.Items(c, id)| && ResumesAt(s, NestedKey(cfg, c, id), n)
    ensures var key, items := NestedKey(cfg, c, id), listing.Items(c, id);
            var t := Persisted(s, key, NestedRecords(cfg, id, items[n..end]), NextCursor(end, |items|));
            && NestedOk(cfg, listing, t, c, id)
            && (end < |items| ==> ResumesAt(t, key, end))
            && (end == |items| ==> IsCompleted(t, key))
  {
    hide InsertAll, InsertedCount;
    var items := listing.Items(c, id);
    var all, page := NestedRecords(cfg, id, items), NestedRecords(cfg, id, items[n..end]);
    assert all[..end] == all[..n] + page;
    InsertAllKeys(s.raw, page);
    assert Covered(InsertAll(s.raw, page), all[..end]);
    assert end == |items| ==> all[..end] == all;
  }

  lemma KeysAreDistinct(cfg: Config, c: Connection, id: string, c': Connection, id': string)
    requires NestedKey(cfg, c, id) == NestedKey(cfg, c', id')
    ensures c == c' && id == id'
  {
  }

  /** Committing one page of children keeps the invariant. */
  lemma NestedPageKeepsInv(cfg: Config, listing: Listing, base: RawTable, s: Store, c: Connection, id: string, n: nat, end: nat)
    requires Inv(cfg, listing, base, s) && TraversedId(cfg, listing, id)
    requires n <= end <= |listing.Items(c, id)| && ResumesAt(s, NestedKey(cfg, c, id), n)
    ensures var key, items := NestedKey(cfg, c, id), listing.Items(c, id);
            var t := Persisted(s, key, NestedRecords(cfg, id, items[n..end]), NextCursor(end, |items|));
            && Inv(cfg, listing, base, t)
            && (end < |items| ==> ResumesAt(t, key, end))
  {
    hide Expected, InsertAll, InsertedCount, OuterOk, NoExtras, NestedOk, NestedRecords, TraversedId, Advanced, Later;
    var key, items := NestedKey(cfg, c, id), listing.Items(c, id);
    var page, next := NestedRecords(cfg, id, items[n..end]), NextCursor(end, |items|);
    var t := Persisted(s, key, page, next);
    assert !IsCompleted(s, key);
    PersistIsLater(s, key, page, next);
    LaterKeeps(cfg, s, t);
    forall r | r in page ensures Expected(cfg, listing, r) {
      PageIsExpected(cfg, listing, c, id, n, end, r);
    }
    PersistHasNoExtras(Wanted(cfg, listing), base, s.raw, page);
    OuterOkSurvives(cfg, listing, s, t);
    NestedPageIsOk(cfg, listing, s, c, id, n, end);
    forall c', id' ensures NestedOk(cfg, listing, t, c', id') {
      if NestedKey(cfg, c', id') == key {
        KeysAreDistinct(cfg, c, id, c', id');
      } else {
        NestedOkSurvives(cfg, listing, s, t, c', id');
      }
    }
  }

  lemma PageIsExpected(cfg: Config, listing: Listing, c: Connection, id: string, n: nat, end: nat, r: BackfillRecord)
    requires TraversedId(cfg, listing, id) && n <= end <= |listing.Items(c, id)|
    requires r in NestedRecords(cfg, id, listing.Items(c, id)[n..end])
    ensures Expected(cfg, listing, r)
  {
    var items := listing.Items(c, id);
    var j :| 0 <= j < end - n && r == NestedRecords(cfg, id, items[n..end])[j];
    assert NestedRecords(cfg, id, items)[n + j] == r;
    var node :| node in Traversed(listing.pullRequests, cfg) && node.id == id;
    assert Belongs(cfg, listing, node, r);
  }

  /** The outer checkpoint claims exactly the pull requests taken so far. */
  lemma OuterPageIsOk(cfg: Config, listing: Listing, s: Store, n: nat, end: nat, next: Option<Cursor>)
    requires OuterOk(cfg, listing, s)
    requires n <= end <= Cut(listing.pullRequests, cfg) && ResumesAt(s, OuterKey(cfg), n)
    requires ChildrenCompleted(cfg, s, listing.pullRequests[n..end])
    requires next == Some(EndCursor(end)) || (next.None? && end == Cut(listing.pullRequests, cfg))
    ensures var t := Persisted(s, OuterKey(cfg), Chosen(Candidates(cfg, listing.pullRequests[n..end])), next);
            && OuterOk(cfg, listing, t)
            && (next.Some? ==> ResumesAt(t, OuterKey(cfg), end))
  {
    hide InsertAll, InsertedCount, Chosen, Cut, PullRequestRecord;
    var prs := listing.pullRequests;
    var page := Chosen(Candidates(cfg, prs[n..end]));
    var t := Persisted(s, OuterKey(cfg), page, next);
    InsertAllKeys(s.raw, page);
    assert DoneUpTo(cfg, listing, s, n);
    forall i | 0 <= i < end && cfg.InWindow(prs[i].createdAt) ensures Done(cfg, t, prs[i]) {
      if i >= n {
        assert prs[n..end][i - n] == prs[i];
        ChosenHas(Candidates(cfg, prs[n..end]), PullRequestRecord(cfg, prs[i]));
        assert Candidates(cfg, prs[n..end])[i - n] == Some(PullRequestRecord(cfg, prs[i]));
      }
    }
  }

  /** Committing one page of pull requests keeps the invariant, once their children are completed. */
  lemma OuterPageKeepsInv(cfg: Config, listing: Listing, base: RawTable, s: Store, n: nat, end: nat, next: Option<Cursor>)
    requires Inv(cfg, listing, base, s)
    requires n <= end <= Cut(listing.pullRequests, cfg) && ResumesAt(s, OuterKey(cfg), n)
    requires ChildrenCompleted(cfg, s, listing.pullRequests[n..end])
    requires next == Some(EndCursor(end)) || (next.None? && end == Cut(listing.pullRequests, cfg))
    ensures var t := Persisted(s, OuterKey(cfg), Chosen(Candidates(cfg, listing.pullRequests[n..end])), next);
            && Inv(cfg, listing, base, t)
            && (next.Some? ==> ResumesAt(t, OuterKey(cfg), end))
  {
    hide Expected, InsertAll, InsertedCount, NoExtras, NestedOk, OuterOk, Chosen, Cut, ChildrenCompleted, ResumesAt;
    var key, prs := OuterKey(cfg), listing.pullRequests;
    var page := Chosen(Candidates(cfg, prs[n..end]));
    var t := Persisted(s, key, page, next);
    forall r | r in page ensures Expected(cfg, listing, r) {
      CandidateIsExpected(cfg, listing, n, end, r);
    }
    PersistHasNoExtras(Wanted(cfg, listing), base, s.raw, page);
    InsertAllKeys(s.raw, page);
    forall c, id ensures NestedOk(cfg, listing, t, c, id) {
      NestedOkSurvives(cfg, listing, s, t, c, id);
    }
    OuterPageIsOk(cfg, listing, s, n, end, next);
  }

  lemma CandidateIsExpected(cfg: Config, listing: Listing, n: nat, end: nat, r: BackfillRecord)
    requires n <= end <= Cut(listing.pullRequests, cfg) && r in Chosen(Candidates(cfg, listing.pullRequests[n..end]))
    ensures Expected(cfg, listing, r)
  {
    var prs := listing.pullRequests;
    ChosenHas(Candidates(cfg, prs[n..end]), r);
    var j :| 0 <= j < end - n && Candidates(cfg, prs[n..end])[j] == Some(r);
    assert prs[n + j] == prs[n..end][j];
    TraversedHas(prs, cfg, prs[n + j]);
    assert Belongs(cfg, listing, prs[n + j], r);
  }

  // ---------------------------------------------------------------- the adapter

  /** What one page of pull requests contributed before its own commit. */
  datatype PageWork = PageWork(records: seq<BackfillRecord>, reachedWindowEnd: bool, summary: Summary)

  /** The summary so far, and the cursor of the next page unless the traversal is completed. */
  datatype Progress = Progress(summary: Summary, next: Option<Cursor>)

  class GitHubPullRequestBackfill {
    const storage: PostgresBackfillStorage
    const client: GraphQLClient
    const cfg: Config
    const pageSize: nat

    constructor (client: GraphQLClient, storage: PostgresBackfillStorage, cfg: Config, pageSize: nat)
      ensures this.client == client && this.storage == storage && this.cfg == cfg && this.pageSize == pageSize
    {
      this.client, this.storage, this.cfg, this.pageSize := client, storage, cfg, pageSize;
    }

    ghost function Now(): Ledger
      reads storage
    {
      Ledger(storage.View(), storage.submitted)
    }

    /** The API shows one frozen listing, and the store satisfies the restart invariant for it. */
    ghost predicate Sound(listing: Listing, base: RawTable)
      reads storage
    {
      Faithful(client.script, listing) && Inv(cfg, listing, base, storage.View())
    }

    /** Neither a request nor a commit will fail. */
    ghost predicate Reliable(listing: Listing)
      reads storage, client
    {
      Uninterrupted(client.script, listing) && client.left.None? && storage.lifetime.None?
    }

    /** Ask for one page of children; a frozen listing answers with what follows position n. */
    method FetchNested(c: Connection, id: string, cursor: Option<Cursor>, ghost listing: Listing, ghost n: nat)
      returns (reply: Reply<NestedNode>)
      requires 1 <= pageSize
      modifies client
      ensures Drawn(old(client.left), client.left)
      ensures reply.Page? && client.left.Some? ==> client.left.value < old(client.left).value
      ensures Faithful(client.script, listing) && Start(cursor) == Some(n) && n <= |listing.Items(c, id)| ==>
                var items := listing.Items(c, id);
                var end := Min(n + pageSize, |items|);
                && (Uninterrupted(client.script, listing) && client.left.None? ==> reply.Page?)
                && (reply.Page? ==>
                      && reply.nodes == items[n..end]
                      && reply.hasNextPage == (end < |items|)
                      && (reply.hasNextPage ==> reply.endCursor == Some(EndCursor(end)) && end > n))
    {
      hide Faithful, Uninterrupted, PageAfter, Start;
      if Faithful(client.script, listing) && Start(cursor) == Some(n) && n <= |listing.Items(c, id)| {
        NestedReply(client.script, listing, client.asked, c, id, pageSize, cursor, n);
      }
      reply := client.Nested(c, id, pageSize, cursor);
    }

    method FetchPullRequests(cursor: Option<Cursor>, ghost listing: Listing, ghost n: nat) returns (reply: Reply<PullRequestNode>)
      requires 1 <= pageSize
      modifies client
      ensures Drawn(old(client.left), client.left)
      ensures reply.Page? && client.left.Some? ==> client.left.value < old(client.left).value
      ensures Faithful(client.script, listing) && Start(cursor) == Some(n) && n <= |listing.pullRequests| ==>
                var items := listing.pullRequests;
                var end := Min(n + pageSize, |items|);
                && (Uninterrupted(client.script, listing) && client.left.None? ==> reply.Page?)
                && (reply.Page? ==>
                      && reply.nodes == items[n..end]
                      && reply.hasNextPage == (end < |items|)
                      && (reply.hasNextPage ==> reply.endCursor == Some(EndCursor(end)) && end > n))
    {
      hide Faithful, Uninterrupted, PageAfter, Start;
      if Faithful(client.script, listing) && Start(cursor) == Some(n) && n <= |listing.pullRequests| {
        OuterReply(client.script, listing, client.asked, pageSize, cursor, n);
      }
      reply := client.PullRequests(pageSize, cursor);
    }

    /** Commit one page of children and add it to the summary. */
    method CommitNested(c: Connection, id: string, records: seq<BackfillRecord>, next: Option<Cursor>, summary: Summary,
                        ghost start: Ledger, ghost listing: Listing, ghost base: RawTable, ghost n: nat, ghost end: nat)
      returns (r: Result<Summary, PersistError>)
      requires forall x | x in records :: x.repositoryId == cfg.repositoryId
      requires Accounts(start, Now(), summary) && !IsCompleted(storage.View(), NestedKey(cfg, c, id))
      modifies storage
      ensures Later(old(storage.View()), storage.View())
      ensures Lookup(storage.checkpoints, OuterKey(cfg)) == old(Lookup(storage.checkpoints, OuterKey(cfg)))
      ensures r.Success? <==> old(storage.lifetime) != Some(0)
      ensures storage.lifetime.None? <==> old(storage.lifetime).None?
      ensures r.Success? ==>
                Accounts(start, Now(), r.value) && (IsCompleted(storage.View(), NestedKey(cfg, c, id)) <==> next.None?)
      ensures PartiallyAccounts(start, Now())
      ensures old(Sound(listing, base)) && NestedPage(c, id, records, next, listing, n, end)
              && old(ResumesAt(storage.View(), NestedKey(cfg, c, id), n)) ==>
                && Sound(listing, base)
                && (r.Success? && next.Some? ==> ResumesAt(storage.View(), NestedKey(cfg, c, id), end))
    {
      hide Inv, Later, Accounts, PartiallyAccounts, Persisted, Faithful, ResumesAt, IsCompleted, Arrived, TraversedId;
      ghost var entry := storage.View();
      ghost var before;
      r, before := CommitPage(storage, NestedKey(cfg, c, id), records, next, next.None?, summary, start);
      CommittedInProgress(before, NestedKey(cfg, c, id), records, next);
      if Faithful(client.script, listing) && Inv(cfg, listing, base, entry) && NestedPage(c, id, records, next, listing, n, end)
         && ResumesAt(entry, NestedKey(cfg, c, id), n) {
        ArrivalsKeepInv(cfg, listing, base, entry, before);
        ArrivedIsLookup(entry, before, NestedKey(cfg, c, id));
        ResumesAtIsLookup(entry, before, NestedKey(cfg, c, id), n);
        NestedPageKeepsInv(cfg, listing, base, before, c, id, n, end);
      }
    }

    /** The records are those of the children from n to end, and the cursor is the one that follows them. */
    ghost predicate NestedPage(c: Connection, id: string, records: seq<BackfillRecord>, next: Option<Cursor>,
                               listing: Listing, n: nat, end: nat)
    {
      var items := listing.Items(c, id);
      && TraversedId(cfg, listing, id)
      && n <= end <= |items| && records == NestedRecords(cfg, id, items[n..end]) && next == NextCursor(end, |items|)
    }

    /**
     * Traverse one child connection of a pull request from its own checkpoint.  Whatever the API
     * answers, the summary accounts for the store; a frozen listing also keeps the invariant.
     */
    method BackfillNested(id: string, c: Connection, ghost listing: Listing, ghost base: RawTable)
      returns (r: Result<Summary, BackfillError>)
      requires 1 <= pageSize
      requires client.left.None? ==> Sound(listing, base) && TraversedId(cfg, listing, id)
      modifies storage, client
      ensures Later(old(storage.View()), storage.View())
      ensures Lookup(storage.checkpoints, OuterKey(cfg)) == old(Lookup(storage.checkpoints, OuterKey(cfg)))
      ensures r.Success? ==> IsCompleted(storage.View(), NestedKey(cfg, c, id)) && Accounts(old(Now()), Now(), r.value)
      ensures r.Failure? ==> PartiallyAccounts(old(Now()), Now())
      ensures Drawn(old(client.left), client.left) && (storage.lifetime.None? <==> old(storage.lifetime).None?)
      ensures old(IsCompleted(storage.View(), NestedKey(cfg, c, id))) ==>
                client.asked == old(client.asked) && r == Success(NOTHING) && Now() == old(Now())
      ensures old(Sound(listing, base)) && TraversedId(cfg, listing, id) ==>
                Sound(listing, base) && (old(Reliable(listing)) ==> r.Success?)
    {
      hide Inv, Later, Accounts, PartiallyAccounts, Persisted, Faithful, Uninterrupted, ResumesAt, PageAfter, IsCompleted,
        TraversedId, Arrived, Lookup, NestedRecord;
      var key := NestedKey(cfg, c, id);
      var summary := NOTHING;
      ghost var good := Sound(listing, base) && TraversedId(cfg, listing, id);
      NothingAccounts(Now());
      LaterIsReflexive(storage.View());
      var checkpoint := storage.LoadCheckpoint(key);
      LoadedCompleted(storage.View(), key, checkpoint);
      if checkpoint.Some? && checkpoint.value.status == Completed {
        return Success(summary);
      }
      var cursor := if checkpoint.Some? then checkpoint.value.cursor else None;
      ghost var items, n: nat := listing.Items(c, id), 0;
      if good {
        CursorIsLookup(storage.View(), key, checkpoint);
        n := NestedResumes(cfg, listing, base, storage.View(), c, id, cursor);
      }
      while true
        invariant Later(old(storage.View()), storage.View()) && !IsCompleted(storage.View(), key)
        invariant Lookup(storage.checkpoints, OuterKey(cfg)) == old(Lookup(storage.checkpoints, OuterKey(cfg)))
        invariant Drawn(old(client.left), client.left) && (storage.lifetime.None? <==> old(storage.lifetime).None?)
        invariant good ==> Sound(listing, base)
        invariant good ==> n <= |items| && Start(cursor) == Some(n) && ResumesAt(storage.View(), key, n)
        invariant Accounts(old(Now()), Now(), summary)
        decreases if client.left.Some? then client.left.value else |items| - n
      {
        AccountsPartially(old(Now()), Now(), summary);
        var reply := FetchNested(c, id, cursor, listing, n);
        if reply.Raised? {
          return Failure(RequestFailed);
        }
        if reply.hasNextPage && reply.endCursor == None {
          return Failure(MalformedPage);
        }
        var records := NestedRecords(cfg, id, reply.nodes);
        var next := if reply.hasNextPage then reply.endCursor else None;
        ghost var entry, end: nat := storage.View(), Min(n + pageSize, |items|);
        NestedRecordsRepository(cfg, id, reply.nodes);
        var written := CommitNested(c, id, records, next, summary, old(Now()), listing, base, n, end);
        LaterIsTransitive(old(storage.View()), entry, storage.View());
        if written.Failure? {
          return Failure(StorageFailed);
        }
        summary := written.value;
        if !reply.hasNextPage {
          return Success(summary);
        }
        cursor := reply.endCursor;
        n := end;
      }
    }

    /** Both child traversals of one pull request, reviews before commits. */
    method BackfillChildren(id: string, ghost listing: Listing, ghost base: RawTable)
      returns (r: Result<Summary, BackfillError>)
      requires 1 <= pageSize
      requires client.left.None? ==> Sound(listing, base) && TraversedId(cfg, listing, id)
      modifies storage, client
      ensures Later(old(storage.View()), storage.View())
      ensures Lookup(storage.checkpoints, OuterKey(cfg)) == old(Lookup(storage.checkpoints, OuterKey(cfg)))
      ensures r.Success? ==>
                && IsCompleted(storage.View(), NestedKey(cfg, Reviews, id))
                && IsCompleted(storage.View(), NestedKey(cfg, Commits, id))
                && Accounts(old(Now()), Now(), r.value)
      ensures r.Failure? ==> PartiallyAccounts(old(Now()), Now())
      ensures Drawn(old(client.left), client.left) && (storage.lifetime.None? <==> old(storage.lifetime).None?)
      ensures old(Sound(listing, base)) && TraversedId(cfg, listing, id) ==>
                Sound(listing, base) && (old(Reliable(listing)) ==> r.Success?)
    {
      hide Inv, Later, Accounts, PartiallyAccounts, Faithful, Uninterrupted, IsCompleted, TraversedId;
      r := BackfillNested(id, Reviews, listing, base);
      if r.Failure? {
        return;
      }
      var reviews := r.value;
      ghost var between := Now();
      r := BackfillNested(id, Commits, listing, base);
      LaterIsTransitive(old(storage.View()), between.store, storage.View());
      LaterKeepsCompleted(between.store, storage.View(), NestedKey(cfg, Reviews, id));
      if r.Failure? {
        PartialPlus(old(Now()), between, Now(), reviews);
        return;
      }
      AccountsPlus(old(Now()), between, Now(), reviews, r.value);
      r := Success(reviews.Plus(r.value));
    }

    /** The loop over one page of pull requests: children first, then the record; stop at the window end. */
    method BackfillNodes(nodes: seq<PullRequestNode>, ghost listing: Listing, ghost base: RawTable, ghost n: nat)
      returns (r: Result<PageWork, BackfillError>, ghost taken: nat)
      requires 1 <= pageSize
      requires client.left.None? ==> Sound(listing, base) && PageAt(cfg, listing, n, nodes)
      modifies storage, client
      ensures Later(old(storage.View()), storage.View())
      ensures Lookup(storage.checkpoints, OuterKey(cfg)) == old(Lookup(storage.checkpoints, OuterKey(cfg)))
      ensures taken <= |nodes|
      ensures r.Success? ==>
                && r.value.records == Chosen(Candidates(cfg, nodes[..taken]))
                && (forall i | 0 <= i < taken :: nodes[i].createdAt < cfg.windowEnd)
                && ChildrenCompleted(cfg, storage.View(), nodes[..taken])
                && r.value.reachedWindowEnd == (taken < |nodes|)
                && (taken < |nodes| ==> nodes[taken].createdAt >= cfg.windowEnd)
                && Accounts(old(Now()), Now(), r.value.summary)
      ensures r.Failure? ==> PartiallyAccounts(old(Now()), Now())
      ensures Drawn(old(client.left), client.left) && (storage.lifetime.None? <==> old(storage.lifetime).None?)
      ensures old(Sound(listing, base)) && PageAt(cfg, listing, n, nodes) ==>
                Sound(listing, base) && (old(Reliable(listing)) ==> r.Success?)
    {
      hide Inv, Later, Accounts, PartiallyAccounts, Faithful, Uninterrupted, IsCompleted, ChildrenCompleted, PageAt,
        PullRequestRecord, Candidates, TraversedId, Chosen;
      ghost var good := Sound(listing, base) && PageAt(cfg, listing, n, nodes);
      var summary, records := NOTHING, [];
      taken := 0;
      NothingAccounts(Now());
      LaterIsReflexive(storage.View());
      NoChildren(cfg, storage.View());
      NoCandidates(cfg);
      for i := 0 to |nodes|
        invariant taken == i
        invariant Later(old(storage.View()), storage.View())
        invariant Lookup(storage.checkpoints, OuterKey(cfg)) == old(Lookup(storage.checkpoints, OuterKey(cfg)))
        invariant Drawn(old(client.left), client.left) && (storage.lifetime.None? <==> old(storage.lifetime).None?)
        invariant good ==> Sound(listing, base)
        invariant records == Chosen(Candidates(cfg, nodes[..i]))
        invariant forall j | 0 <= j < i :: nodes[j].createdAt < cfg.windowEnd
        invariant ChildrenCompleted(cfg, storage.View(), nodes[..i])
        invariant Accounts(old(Now()), Now(), summary)
      {
        var node := nodes[i];
        if node.createdAt >= cfg.windowEnd {
          return Success(PageWork(records, true, summary)), i;
        }
        assert nodes[..i + 1] == nodes[..i] + [node];
        CandidatesAppend(cfg, nodes[..i], node);
        taken := i + 1;
        ghost var before := Now();
        if node.createdAt >= cfg.windowStart {
          if good {
            NodeIsTraversed(cfg, listing, n, nodes, i);
          }
          var children := BackfillChildren(node.id, listing, base);
          LaterIsTransitive(old(storage.View()), before.store, storage.View());
          if children.Failure? {
            PartialPlus(old(Now()), before, Now(), summary);
            return Failure(children.error), taken;
          }
          AccountsPlus(old(Now()), before, Now(), summary, children.value);
          summary := summary.Plus(children.value);
          LaterKeepsChildren(cfg, before.store, storage.View(), nodes[..i]);
          records := records + [PullRequestRecord(cfg, node)];
        }
        ChildrenAppend(cfg, storage.View(), nodes[..i], node);
      }
      assert nodes[..|nodes|] == nodes;
      return Success(PageWork(records, false, summary)), |nodes|;
    }

    /** Commit one page of pull requests, whose children are already completed. */
    method CommitPullRequests(nodes: seq<PullRequestNode>, work: PageWork, next: Option<Cursor>, summary: Summary,
                              ghost start: Ledger, ghost listing: Listing, ghost base: RawTable, ghost n: nat, ghost taken: nat)
      returns (r: Result<Summary, PersistError>)
      requires taken <= |nodes| && work.records == Chosen(Candidates(cfg, nodes[..taken]))
      requires Accounts(start, Now(), summary) && !IsCompleted(storage.View(), OuterKey(cfg))
      modifies storage
      ensures Later(old(storage.View()), storage.View())
      ensures r.Success? <==> old(storage.lifetime) != Some(0)
      ensures storage.lifetime.None? <==> old(storage.lifetime).None?
      ensures r.Success? ==>
                Accounts(start, Now(), r.value) && (IsCompleted(storage.View(), OuterKey(cfg)) <==> next.None?)
      ensures PartiallyAccounts(start, Now())
      ensures old(Sound(listing, base)) && PageAt(cfg, listing, n, nodes) && TakenUpTo(nodes, taken)
              && old(ChildrenCompleted(cfg, storage.View(), nodes[..taken]) && ResumesAt(storage.View(), OuterKey(cfg), n))
              && (next == Some(EndCursor(n + taken)) || (next.None? && (taken < |nodes| || n + taken == |listing.pullRequests|))) ==>
                && Sound(listing, base)
                && n + taken <= Cut(listing.pullRequests, cfg)
                && (r.Success? && next.Some? ==> ResumesAt(storage.View(), OuterKey(cfg), n + taken))
    {
      hide Inv, Later, Accounts, PartiallyAccounts, Persisted, Faithful, ResumesAt, IsCompleted, Arrived, PageAt, Chosen,
        ChildrenCompleted, Candidates;
      ghost var entry, key := storage.View(), OuterKey(cfg);
      CandidatesRepository(cfg, nodes[..taken]);
      ghost var before;
      r, before := CommitPage(storage, OuterKey(cfg), work.records, next, next.None?, summary, start);
      CommittedInProgress(before, key, work.records, next);
      if && Faithful(client.script, listing) && Inv(cfg, listing, base, entry) && PageAt(cfg, listing, n, nodes)
         && TakenUpTo(nodes, taken) && ChildrenCompleted(cfg, entry, nodes[..taken]) && ResumesAt(entry, key, n)
         && (next == Some(EndCursor(n + taken)) || (next.None? && (taken < |nodes| || n + taken == |listing.pullRequests|))) {
        PageIsReady(cfg, listing, n, taken, nodes);
        ArrivalsKeepInv(cfg, listing, base, entry, before);
        ArrivedIsLookup(entry, before, key);
        ResumesAtIsLookup(entry, before, key, n);
        ArrivedIsLater(entry, before);
        LaterKeepsChildren(cfg, entry, before, nodes[..taken]);
        OuterPageKeepsInv(cfg, listing, base, before, n, n + taken, next);
      }
    }

    /** The first nodes lie before the window end, and the next one, if any, does not. */
    ghost predicate TakenUpTo(nodes: seq<PullRequestNode>, taken: nat) {
      && taken <= |nodes|
      && (forall i | 0 <= i < taken :: nodes[i].createdAt < cfg.windowEnd)
      && (taken < |nodes| ==> nodes[taken].createdAt >= cfg.windowEnd)
    }

    /** The traversal stands at position n of the frozen listing, and the checkpoint says so. */
    ghost predicate AtPosition(listing: Listing, cursor: Option<Cursor>, n: nat)
      reads storage
    {
      n <= Cut(listing.pullRequests, cfg) && Start(cursor) == Some(n) && ResumesAt(storage.View(), OuterKey(cfg), n)
    }

    /** One turn of the outer loop: fetch a page, complete the children of its nodes, commit it. */
    method BackfillPage(cursor: Option<Cursor>, summary: Summary, ghost start: Ledger, ghost listing: Listing,
                        ghost base: RawTable, ghost n: nat)
      returns (r: Result<Progress, BackfillError>, ghost end: nat)
      requires 1 <= pageSize
      requires client.left.None? ==> Sound(listing, base) && AtPosition(listing, cursor, n)
      requires Accounts(start, Now(), summary) && !IsCompleted(storage.View(), OuterKey(cfg))
      modifies storage, client
      ensures Later(old(storage.View()), storage.View())
      ensures Drawn(old(client.left), client.left) && (storage.lifetime.None? <==> old(storage.lifetime).None?)
      ensures r.Success? && client.left.Some? ==> client.left.value < old(client.left).value
      ensures r.Success? ==>
                && Accounts(start, Now(), r.value.summary)
                && (IsCompleted(storage.View(), OuterKey(cfg)) <==> r.value.next.None?)
      ensures r.Failure? ==> PartiallyAccounts(start, Now())
      ensures old(Sound(listing, base)) && old(AtPosition(listing, cursor, n)) ==>
                && Sound(listing, base)
                && (old(Reliable(listing)) ==> r.Success?)
                && (r.Success? && r.value.next.Some? ==>
                      n < end <= |listing.pullRequests| && AtPosition(listing, r.value.next, end))
    {
      hide Inv, Later, Accounts, PartiallyAccounts, Faithful, Uninterrupted, ResumesAt, ChildrenCompleted,
        IsCompleted, Config.InWindow, PullRequestRecord, Candidates, Chosen, Cut, Lookup, PageAt;
      ghost var good := Sound(listing, base) && AtPosition(listing, cursor, n);
      end := n;
      AccountsPartially(start, Now(), summary);
      LaterIsReflexive(storage.View());
      var reply := FetchPullRequests(cursor, listing, n);
      if reply.Raised? {
        return Failure(RequestFailed), end;
      }
      if reply.hasNextPage && reply.endCursor == None {
        return Failure(MalformedPage), end;
      }
      ghost var atPage := Now();
      if good {
        PageFollows(cfg, listing, n, pageSize, reply.nodes);
      }
      var work;
      ghost var taken: nat;
      work, taken := BackfillNodes(reply.nodes, listing, base, n);
      if work.Failure? {
        PartialPlus(start, atPage, Now(), summary);
        return Failure(work.error), end;
      }
      AccountsPlus(start, atPage, Now(), summary, work.value.summary);
      var completed := work.value.reachedWindowEnd || !reply.hasNextPage;
      var next := if completed then None else reply.endCursor;
      ghost var ready := Now();
      CompletedIsLookup(atPage.store, ready.store, OuterKey(cfg));
      if good {
        ResumesAtIsLookup(atPage.store, ready.store, OuterKey(cfg), n);
      }
      end := n + taken;
      var written := CommitPullRequests(reply.nodes, work.value, next, summary.Plus(work.value.summary), start, listing, base, n, taken);
      LaterIsTransitive(atPage.store, ready.store, storage.View());
      if written.Failure? {
        return Failure(StorageFailed), end;
      }
      return Success(Progress(written.value, next)), end;
    }

    /**
     * The outer loop, from wherever the checkpoint stands.  Whatever the API answers, the summary is
     * exactly the growth of rows, pages and submissions; a frozen listing also keeps the invariant.
     */
    method Run(ghost listing: Listing, ghost base: RawTable) returns (r: Result<Summary, BackfillError>)
      requires 1 <= pageSize
      requires client.left.None? ==> Sound(listing, base)
      modifies storage, client
      ensures Later(old(storage.View()), storage.View())
      ensures r.Success? ==> IsCompleted(storage.View(), OuterKey(cfg)) && Accounts(old(Now()), Now(), r.value)
      ensures r.Failure? ==> PartiallyAccounts(old(Now()), Now())
      ensures cfg.windowStart >= cfg.windowEnd ==> r == Failure(InvalidWindow)
      ensures cfg.windowStart < cfg.windowEnd && old(IsCompleted(storage.View(), OuterKey(cfg))) ==>
                client.asked == old(client.asked) && r == Success(NOTHING) && Now() == old(Now())
      ensures old(Sound(listing, base)) ==>
                && Sound(listing, base)
                && (cfg.windowStart < cfg.windowEnd && old(Reliable(listing)) ==> r.Success?)
    {
      hide Inv, Later, Accounts, PartiallyAccounts, Faithful, Uninterrupted, ResumesAt, IsCompleted, Cut, Lookup;
      var summary := NOTHING;
      ghost var good := Sound(listing, base);
      NothingAccounts(Now());
      LaterIsReflexive(storage.View());
      if cfg.windowStart >= cfg.windowEnd {
        AccountsPartially(Now(), Now(), summary);
        return Failure(InvalidWindow);
      }
      var key := OuterKey(cfg);
      var checkpoint := storage.LoadCheckpoint(key);
      LoadedCompleted(storage.View(), key, checkpoint);
      if checkpoint.Some? && checkpoint.value.status == Completed {
        return Success(summary);
      }
      var cursor := if checkpoint.Some? then checkpoint.value.cursor else None;
      ghost var n: nat := 0;
      if good {
        CursorIsLookup(storage.View(), key, checkpoint);
        n := OuterResumes(cfg, listing, base, storage.View(), cursor);
      }
      while true
        invariant Later(old(storage.View()), storage.View()) && !IsCompleted(storage.View(), key)
        invariant Drawn(old(client.left), client.left) && (storage.lifetime.None? <==> old(storage.lifetime).None?)
        invariant good ==> Sound(listing, base) && AtPosition(listing, cursor, n)
        invariant Accounts(old(Now()), Now(), summary)
        decreases if client.left.Some? then client.left.value else |listing.pullRequests| - n
      {
        ghost var before := storage.View();
        var page;
        page, n := BackfillPage(cursor, summary, old(Now()), listing, base, n);
        LaterIsTransitive(old(storage.View()), before, storage.View());
        if page.Failure? {
          return Failure(page.error);
        }
        summary := page.value.summary;
        if page.value.next == None {
          return Success(summary);
        }
        cursor := page.value.next;
      }
    }
  }

  lemma NoCandidates(cfg: Config)
    ensures Chosen(Candidates(cfg, [])) == []
  {
  }

  lemma NestedRecordsRepository(cfg: Config, id: string, nodes: seq<NestedNode>)
    ensures forall r | r in NestedRecords(cfg, id, nodes) :: r.repositoryId == cfg.repositoryId
  {
  }

  lemma CursorIsLookup(s: Store, key: RunKey, c: Option<Checkpoint>)
    requires c == Lookup(s.checkpoints, key)
    ensures (if key in s.checkpoints then s.checkpoints[key].cursor else None) == if c.Some? then c.value.cursor else None
  {
  }

  /** A checkpoint is completed exactly when its page was the last. */
  lemma CommittedInProgress(s: Store, key: RunKey, records: seq<BackfillRecord>, next: Option<Cursor>)
    ensures IsCompleted(Persisted(s, key, records, next), key) <==> next.None?
  {
  }

  // ---------------------------------------------------------------- what restarts guarantee

  /**
   * A completed outer checkpoint means exactly the records of the traversed pull requests, beside
   * what was there before and what other traversals added; old rows are untouched.
   */
  lemma CompletedIsExact(cfg: Config, listing: Listing, base: RawTable, s: Store)
    requires Inv(cfg, listing, base, s) && IsCompleted(s, OuterKey(cfg))
    ensures forall k: RawKey | k.source.Backfill? :: k in s.raw <==> k in base || exists r :: Expected(cfg, listing, r) && r.Key() == k
    ensures forall k | k in s.raw && k.source.Backfill? ::
              if k in base then s.raw[k] == base[k]
              else exists r :: Expected(cfg, listing, r) && r.Key() == k && r.Row() == s.raw[k]
  {
    hide Expected;
    forall r | Expected(cfg, listing, r) ensures r.Key() in s.raw {
      ExpectedIsStored(cfg, listing, base, s, r);
    }
  }

  lemma CompletedChildrenAreStored(cfg: Config, listing: Listing, s: Store, c: Connection, id: string)
    requires NestedOk(cfg, listing, s, c, id) && IsCompleted(s, NestedKey(cfg, c, id))
    ensures Covered(s.raw, NestedRecords(cfg, id, listing.Items(c, id)))
  {
  }

  lemma CompletedIsDone(cfg: Config, listing: Listing, base: RawTable, s: Store, node: PullRequestNode)
    requires Inv(cfg, listing, base, s) && IsCompleted(s, OuterKey(cfg))
    requires node in Traversed(listing.pullRequests, cfg)
    ensures Done(cfg, s, node)
  {
    hide NestedOk, NoExtras, Done;
    TraversedHas(listing.pullRequests, cfg, node);
  }

  lemma ExpectedIsStored(cfg: Config, listing: Listing, base: RawTable, s: Store, r: BackfillRecord)
    requires Inv(cfg, listing, base, s) && IsCompleted(s, OuterKey(cfg)) && Expected(cfg, listing, r)
    ensures r.Key() in s.raw
  {
    hide NestedOk, NoExtras, OuterOk, IsCompleted, NestedRecords, PullRequestRecord;
    var node :| node in Traversed(listing.pullRequests, cfg) && Belongs(cfg, listing, node, r);
    CompletedIsDone(cfg, listing, base, s, node);
    if r != PullRequestRecord(cfg, node) {
      var c: Connection :| r in NestedRecords(cfg, node.id, listing.Items(c, node.id));
      assert c == Reviews || c == Commits;
      CompletedChildrenAreStored(cfg, listing, s, c, node.id);
    }
  }

  /** No two listed pull requests have the same record key, and none of these keys was there before. */
  ghost predicate NewPullRequests(cfg: Config, listing: Listing, base: RawTable) {
    var prs := listing.pullRequests;
    && (forall i, j | 0 <= i < j < |prs| :: PullRequestRecord(cfg, prs[i]).Key() != PullRequestRecord(cfg, prs[j]).Key())
    && (forall i | 0 <= i < |prs| :: PullRequestRecord(cfg, prs[i]).Key() !in base)
  }

  /** If the listing is cut-off safe, what was traversed is the whole window. */
  lemma SafeTraversalIsWindow(cfg: Config, listing: Listing, r: BackfillRecord)
    requires cfg.windowStart < cfg.windowEnd && CutOffSafe(listing.pullRequests, cfg)
    ensures Expected(cfg, listing, r) <==> InWindowRecord(cfg, listing, r)
  {
    CutOffIsExactIffSafe(listing.pullRequests, cfg);
  }

  /**
   * A completed traversal has stored the whole window if the cut-off was safe, and, as long as the
   * listed pull requests are new to the table, only then.
   */
  lemma CompletedCoversWindowIffSafe(cfg: Config, listing: Listing, base: RawTable, s: Store)
    requires Inv(cfg, listing, base, s) && IsCompleted(s, OuterKey(cfg)) && cfg.windowStart < cfg.windowEnd
    ensures CutOffSafe(listing.pullRequests, cfg) ==> forall r | InWindowRecord(cfg, listing, r) :: r.Key() in s.raw
    ensures NewPullRequests(cfg, listing, base) ==>
              ((forall r | InWindowRecord(cfg, listing, r) :: r.Key() in s.raw) <==> CutOffSafe(listing.pullRequests, cfg))
  {
    hide Inv, Expected, InWindowRecord, IsCompleted;
    if CutOffSafe(listing.pullRequests, cfg) {
      forall r | InWindowRecord(cfg, listing, r) ensures r.Key() in s.raw {
        SafeTraversalIsWindow(cfg, listing, r);
        ExpectedIsStored(cfg, listing, base, s, r);
      }
    } else if NewPullRequests(cfg, listing, base) {
      var j := FirstSkipped(cfg, listing);
      var r := PullRequestRecord(cfg, listing.pullRequests[j]);
      SkippedIsInWindow(cfg, listing, j);
      CompletedIsExact(cfg, listing, base, s);
      assert r.Key() !in s.raw by {
        if r.Key() in s.raw {
          var q :| Expected(cfg, listing, q) && q.Key() == r.Key();
          SkippedIsNotExpected(cfg, listing, base, j, q);
        }
      }
    }
  }

  lemma FirstSkipped(cfg: Config, listing: Listing) returns (j: nat)
    requires !CutOffSafe(listing.pullRequests, cfg)
    ensures Cut(listing.pullRequests, cfg) <= j < |listing.pullRequests| && cfg.InWindow(listing.pullRequests[j].createdAt)
  {
    var prs := listing.pullRequests;
    var i :| 0 <= i < |prs| && prs[i].createdAt >= cfg.windowEnd && exists k :: i < k < |prs| && cfg.InWindow(prs[k].createdAt);
    j :| i < j < |prs| && cfg.InWindow(prs[j].createdAt);
    CutIsFirst(prs, cfg);
  }

  lemma SkippedIsInWindow(cfg: Config, listing: Listing, j: nat)
    requires j < |listing.pullRequests| && cfg.InWindow(listing.pullRequests[j].createdAt)
    ensures InWindowRecord(cfg, listing, PullRequestRecord(cfg, listing.pullRequests[j]))
  {
    FilteredHas(listing.pullRequests, cfg, listing.pullRequests[j]);
    assert Belongs(cfg, listing, listing.pullRequests[j], PullRequestRecord(cfg, listing.pullRequests[j]));
  }

  lemma SkippedIsNotExpected(cfg: Config, listing: Listing, base: RawTable, j: nat, q: BackfillRecord)
    requires NewPullRequests(cfg, listing, base) && Expected(cfg, listing, q)
    requires Cut(listing.pullRequests, cfg) <= j < |listing.pullRequests|
    ensures q.Key() != PullRequestRecord(cfg, listing.pullRequests[j]).Key()
  {
    var node :| node in Traversed(listing.pullRequests, cfg) && Belongs(cfg, listing, node, q);
    TraversedHas(listing.pullRequests, cfg, node);
  }

  /** Record keys identify the expected records. */
  ghost predicate KeysIdentify(cfg: Config, listing: Listing) {
    forall r, q | Expected(cfg, listing, r) && Expected(cfg, listing, q) && r.Key() == q.Key() :: r == q
  }

  ghost function Backfilled(raw: RawTable): RawTable { map k | k in raw && k.source.Backfill? :: raw[k] }

  /** However often two traversals were interrupted, once completed they leave the same backfilled rows. */
  lemma InterruptionsDoNotMatter(cfg: Config, listing: Listing, base: RawTable, s: Store, t: Store)
    requires Inv(cfg, listing, base, s) && IsCompleted(s, OuterKey(cfg))
    requires Inv(cfg, listing, base, t) && IsCompleted(t, OuterKey(cfg))
    ensures BackfillKeys(s.raw) == BackfillKeys(t.raw)
    ensures KeysIdentify(cfg, listing) ==> Backfilled(s.raw) == Backfilled(t.raw)
  {
    hide Inv, Expected, IsCompleted;
    CompletedIsExact(cfg, listing, base, s);
    CompletedIsExact(cfg, listing, base, t);
    assert forall k: RawKey | k.source.Backfill? :: k in s.raw <==> k in t.raw;
  }

  ghost predicate NeverFails(a: Attempt<Script>, listing: Listing) { Uninterrupted(a.script, listing) && a.Lasting() }

  /**
   * Any number of starts on the same storage, and between them any transactions of other processes.
   * Wherever each start was cut off, the invariant holds over a base that grew only by rows of those
   * transactions, and one start that never fails leaves the window completed for good.
   */
  method Restart(storage: PostgresBackfillStorage, cfg: Config, events: seq<Event<Script>>, ghost listing: Listing, ghost base: RawTable)
    returns (ghost widened: RawTable)
    requires forall e | e in events :: Admissible(cfg, GRAPHQL_RESOURCES, e)
    requires forall e | e in events && e.Begin? :: Faithful(e.attempt.script, listing)
    requires cfg.windowStart < cfg.windowEnd
    requires Inv(cfg, listing, base, storage.View())
    modifies storage
    ensures GivenBy(base, widened, events) && Inv(cfg, listing, widened, storage.View())
    ensures (exists e | e in events :: e.Begin? && NeverFails(e.attempt, listing)) ==> IsCompleted(storage.View(), OuterKey(cfg))
    ensures PartiallyAccounts(old(Ledger(storage.View(), storage.submitted)), Ledger(storage.View(), storage.submitted))
  {
    hide Inv, Later, Accounts, PartiallyAccounts, Faithful, Uninterrupted, IsCompleted, Foreign, SameClaims, AfterWrite, Lookup,
      GivenBy, Widened;
    ghost var start := Ledger(storage.View(), storage.submitted);
    widened := base;
    NothingAccounts(start);
    AccountsPartially(start, start, NOTHING);
    NothingGiven<Script>(base);
    for i := 0 to |events|
      invariant GivenBy(base, widened, events[..i]) && Inv(cfg, listing, widened, storage.View())
      invariant (exists j :: 0 <= j < i && events[j].Begin? && NeverFails(events[j].attempt, listing)) ==>
                  IsCompleted(storage.View(), OuterKey(cfg))
      invariant PartiallyAccounts(start, Ledger(storage.View(), storage.submitted))
    {
      ghost var before := Ledger(storage.View(), storage.submitted);
      assert Admissible(cfg, GRAPHQL_RESOURCES, events[i]);
      assert events[..i + 1] == events[..i] + [events[i]];
      match events[i] {
        case Begin(a) =>
          storage.Reconnect(a.lifetime, a.arrivals);
          var client := new GraphQLClient(a.script, a.answers);
          var backfill := new GitHubPullRequestBackfill(client, storage, cfg, a.pageSize);
          var r := backfill.Run(listing, widened);
          if r.Success? {
            AccountsPartially(before, Ledger(storage.View(), storage.submitted), r.value);
          }
          LaterKeepsCompleted(before.store, storage.View(), OuterKey(cfg));
          GivenLater(base, widened, events[..i], events[i]);
        case Other(w) =>
          ForeignKeepsInv(cfg, listing, widened, before.store, w);
          WriteAccounts(before.store, before.submitted, w);
          OuterClaim(cfg, before.store, AfterWrite(before.store, w));
          InvContainsBase(cfg, listing, widened, before.store);
          GivenMore(base, widened, events[..i], before.store, w);
          widened := Widened(widened, before.store.raw, AfterWrite(before.store, w).raw);
          storage.OtherWriter(w);
      }
      PartialsCompose(start, before, Ledger(storage.View(), storage.submitted));
    }
    assert events[..|events|] == events;
  }

  lemma InvContainsBase(cfg: Config, listing: Listing, base: RawTable, s: Store)
    requires Inv(cfg, listing, base, s)
    ensures Grows(base, s.raw)
  {
  }

  lemma OuterClaim(cfg: Config, s: Store, t: Store)
    requires SameClaims(cfg, s, t)
    ensures IsCompleted(s, OuterKey(cfg)) <==> IsCompleted(t, OuterKey(cfg))
  {
    assert Lookup(s.checkpoints, OuterKey(cfg)) == Lookup(t.checkpoints, OuterKey(cfg));
  }

  /** All starts of a history, and one of them never fails. */
  ghost predicate FinishesAlone(events: seq<Event<Script>>, listing: Listing) {
    && (forall e | e in events :: e.Begin? && 1 <= e.attempt.pageSize && Faithful(e.attempt.script, listing))
    && (exists e | e in events :: e.Begin? && NeverFails(e.attempt, listing))
  }

  /**
   * Two databases that start alike: however often the traversal of the first is cut off before it
   * completes, it ends with the same backfilled rows as that of the second, say one uninterrupted run.
   */
  method InterruptedLikeUninterrupted(first: PostgresBackfillStorage, second: PostgresBackfillStorage, cfg: Config,
                                      interrupted: seq<Event<Script>>, uninterrupted: seq<Event<Script>>, ghost listing: Listing)
    requires first != second && first.View() == second.View() && cfg.windowStart < cfg.windowEnd
    requires forall k | k in first.checkpoints :: !OwnKey(cfg, GRAPHQL_RESOURCES, k)
    requires FinishesAlone(interrupted, listing) && FinishesAlone(uninterrupted, listing)
    modifies first, second
    ensures BackfillKeys(first.raw) == BackfillKeys(second.raw)
    ensures KeysIdentify(cfg, listing) ==> Backfilled(first.raw) == Backfilled(second.raw)
    ensures forall k | k in first.raw && k !in old(first.raw) && k.source.Backfill? ::
              exists r :: Expected(cfg, listing, r) && r.Key() == k && r.Row() == first.raw[k]
  {
    hide Inv, Faithful, Uninterrupted, IsCompleted, GivenBy, Expected;
    FreshStart(cfg, listing, first.View());
    ghost var base := first.raw;
    ghost var one := Restart(first, cfg, interrupted, listing, base);
    ghost var two := Restart(second, cfg, uninterrupted, listing, base);
    AloneIsGivenNothing(base, one, interrupted);
    AloneIsGivenNothing(base, two, uninterrupted);
    InterruptionsDoNotMatter(cfg, listing, base, first.View(), second.View());
    CompletedIsExact(cfg, listing, base, first.View());
  }
}
