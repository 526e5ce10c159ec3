/** A frozen GitHub listing, the pages a GraphQL server cuts from it, and the records it yields. */
module GitHubListing {
  import opened Wrappers
  import opened Arithmetic
  import opened RawEvents
  import opened BackfillStorage
  import opened BackfillRuns

  datatype PullRequestNode = PullRequestNode(id: string, createdAt: int, updatedAt: int, state: string, json: string)

  datatype NestedNode =
    | ReviewNode(id: string, state: string, submittedAt: Option<int>, updatedAt: int, json: string)
    | CommitNode(associationId: string, committedAt: int, json: string)

  datatype Connection = Reviews | Commits
  {
    function Resource(): Resource { match this case Reviews => PullRequestReviews case Commits => PullRequestCommits }
  }

  datatype Listing = Listing(pullRequests: seq<PullRequestNode>, nested: map<(Connection, string), seq<NestedNode>>)
  {
    function Items(c: Connection, id: string): seq<NestedNode> {
      if (c, id) in nested then nested[(c, id)] else []
    }
  }

  /** A response that satisfies the page contract, or any failure of the request. */
  datatype Reply<+T> = Raised | Page(nodes: seq<T>, endCursor: Option<Cursor>, hasNextPage: bool)

  /** What the API answers to its n-th request; a live listing may answer differently each time. */
  datatype Script = Script(
    pullRequests: (nat, nat, Option<Cursor>) -> Reply<PullRequestNode>,
    nested: (nat, Connection, string, nat, Option<Cursor>) -> Reply<NestedNode>)

  /** The connection to the API: after so many answers it fails for good, unless that never happens. */
  class GraphQLClient {
    const script: Script
    var asked: nat
    var left: Option<nat>

    constructor (script: Script, left: Option<nat>)
      ensures this.script == script && this.left == left && asked == 0
    {
      this.script, this.left, asked := script, left, 0;
    }

    method PullRequests(size: nat, cursor: Option<Cursor>) returns (reply: Reply<PullRequestNode>)
      modifies this
      ensures reply == if old(left) == Some(0) then Raised else script.pullRequests(old(asked), size, cursor)
      ensures asked == old(asked) + 1 && left == Spent(old(left))
    {
      reply := if left == Some(0) then Raised else script.pullRequests(asked, size, cursor);
      asked, left := asked + 1, Spent(left);
    }

    method Nested(c: Connection, id: string, size: nat, cursor: Option<Cursor>) returns (reply: Reply<NestedNode>)
      modifies this
      ensures reply == if old(left) == Some(0) then Raised else script.nested(old(asked), c, id, size, cursor)
      ensures asked == old(asked) + 1 && left == Spent(old(left))
    {
      reply := if left == Some(0) then Raised else script.nested(asked, c, id, size, cursor);
      asked, left := asked + 1, Spent(left);
    }
  }

  function Start(cursor: Option<Cursor>): Option<nat> {
    match cursor
    case None => Some(0)
    case Some(EndCursor(n)) => Some(n)
    case Some(PageNumber(_)) => None
  }

  /** The page of a frozen listing after a cursor; foreign cursors are refused. */
  function PageAfter<T>(items: seq<T>, size: nat, cursor: Option<Cursor>): Reply<T> {
    match Start(cursor)
    case None => Raised
    case Some(n) =>
      if n > |items| then Raised
      else
        var end := Min(n + size, |items|);
        Page(items[n..end], if end == n then None else Some(EndCursor(end)), end < |items|)
  }

  /** Every answer is the frozen listing's or a failure: a crash may strike at any request. */
  ghost predicate Faithful(script: Script, listing: Listing) {
    && (forall t, size, cursor :: script.pullRequests(t, size, cursor).Raised?
                                  || script.pullRequests(t, size, cursor) == PageAfter(listing.pullRequests, size, cursor))
    && (forall t, c, id, size, cursor :: script.nested(t, c, id, size, cursor).Raised?
                                         || script.nested(t, c, id, size, cursor) == PageAfter(listing.Items(c, id), size, cursor))
  }

  /** A script without failures. */
  ghost predicate Uninterrupted(script: Script, listing: Listing) {
    && (forall t, size, cursor :: script.pullRequests(t, size, cursor) == PageAfter(listing.pullRequests, size, cursor))
    && (forall t, c, id, size, cursor ::
          script.nested(t, c, id, size, cursor) == PageAfter(listing.Items(c, id), size, cursor))
  }

  // ---------------------------------------------------------------- keys and records

  function OuterKey(cfg: Config): RunKey {
    RunKey(cfg.repositoryId, PullRequests, RepositoryScope, cfg.windowStart, cfg.windowEnd)
  }

  function NestedKey(cfg: Config, c: Connection, id: string): RunKey {
    RunKey(cfg.repositoryId, c.Resource(), PullRequestScope(id), cfg.windowStart, cfg.windowEnd)
  }

  function PullRequestRecord(cfg: Config, node: PullRequestNode): BackfillRecord {
    BackfillRecord(PullRequestKey(node.id, node.updatedAt), "pull_request", node.state, cfg.repositoryId,
                   cfg.installationId, Some(node.createdAt), RawPayload(node.json, None))
  }

  function NestedRecord(cfg: Config, id: string, node: NestedNode): BackfillRecord {
    match node
    case ReviewNode(reviewId, state, submittedAt, updatedAt, json) =>
      BackfillRecord(ReviewKey(reviewId, state), "pull_request_review", state, cfg.repositoryId, cfg.installationId,
                     Some(if submittedAt.Some? then submittedAt.value else updatedAt),
                     RawPayload(json, Some(PullRequestParent(id))))
    case CommitNode(associationId, committedAt, json) =>
      BackfillRecord(CommitKey(associationId), "pull_request_commit", "associated", cfg.repositoryId, cfg.installationId,
                     Some(committedAt), RawPayload(json, Some(PullRequestParent(id))))
  }

  function NestedRecords(cfg: Config, id: string, nodes: seq<NestedNode>): (records: seq<BackfillRecord>)
    ensures |records| == |nodes|
    ensures forall i | 0 <= i < |nodes| :: records[i] == NestedRecord(cfg, id, nodes[i])
  {
    seq(|nodes|, i requires 0 <= i < |nodes| => NestedRecord(cfg, id, nodes[i]))
  }

  function Candidate(cfg: Config, node: PullRequestNode): Option<BackfillRecord> {
    if cfg.InWindow(node.createdAt) then Some(PullRequestRecord(cfg, node)) else None
  }

  /** A record for each in-window node; the others are skipped. */
  function Candidates(cfg: Config, nodes: seq<PullRequestNode>): (candidates: seq<Option<BackfillRecord>>)
    ensures |candidates| == |nodes|
    ensures forall i | 0 <= i < |nodes| :: candidates[i] == Candidate(cfg, nodes[i])
  {
    seq(|nodes|, i requires 0 <= i < |nodes| => Candidate(cfg, nodes[i]))
  }

  // ---------------------------------------------------------------- the early cut-off

  /** No pull request in the window is listed after one at or beyond its end. */
  ghost predicate CutOffSafe(prs: seq<PullRequestNode>, cfg: Config) {
    forall i, j | 0 <= i < j < |prs| && prs[i].createdAt >= cfg.windowEnd :: !cfg.InWindow(prs[j].createdAt)
  }

  lemma AscendingIsCutOffSafe(prs: seq<PullRequestNode>, cfg: Config)
    requires forall i, j | 0 <= i < j < |prs| :: prs[i].createdAt <= prs[j].createdAt
    ensures CutOffSafe(prs, cfg)
  {
  }

  /** The position of the first node at or beyond the window end, where the traversal stops. */
  function Cut(prs: seq<PullRequestNode>, cfg: Config): (n: nat)
    ensures n <= |prs|
  {
    if prs == [] || prs[0].createdAt >= cfg.windowEnd then 0 else 1 + Cut(prs[1..], cfg)
  }

  lemma {:induction false} CutIsFirst(prs: seq<PullRequestNode>, cfg: Config)
    ensures forall i | 0 <= i < Cut(prs, cfg) :: prs[i].createdAt < cfg.windowEnd
    ensures Cut(prs, cfg) < |prs| ==> prs[Cut(prs, cfg)].createdAt >= cfg.windowEnd
  {
    if prs != [] && prs[0].createdAt < cfg.windowEnd {
      CutIsFirst(prs[1..], cfg);
      assert forall i | 0 < i < |prs| :: prs[i] == prs[1..][i - 1];
    }
  }

  /** What a traversal that stops at the first node at or beyond the window end selects. */
  function Traversed(prs: seq<PullRequestNode>, cfg: Config): seq<PullRequestNode> {
    if prs == [] || prs[0].createdAt >= cfg.windowEnd then []
    else (if prs[0].createdAt < cfg.windowStart then [] else [prs[0]]) + Traversed(prs[1..], cfg)
  }

  function Filtered(prs: seq<PullRequestNode>, cfg: Config): seq<PullRequestNode> {
    if prs == [] then []
    else (if cfg.InWindow(prs[0].createdAt) then [prs[0]] else []) + Filtered(prs[1..], cfg)
  }

  lemma {:induction false} FilteredEmpty(prs: seq<PullRequestNode>, cfg: Config)
    ensures Filtered(prs, cfg) == [] <==> forall j | 0 <= j < |prs| :: !cfg.InWindow(prs[j].createdAt)
  {
    if prs != [] {
      FilteredEmpty(prs[1..], cfg);
      assert forall j | 0 < j < |prs| :: prs[j] == prs[1..][j - 1];
    }
  }

  /** The early cut-off gives the window filter of the whole listing exactly when it is safe. */
  lemma {:induction false} CutOffIsExactIffSafe(prs: seq<PullRequestNode>, cfg: Config)
    requires cfg.windowStart < cfg.windowEnd
    ensures Traversed(prs, cfg) == Filtered(prs, cfg) <==> CutOffSafe(prs, cfg)
  {
    if prs != [] {
      var rest := prs[1..];
      assert forall j | 0 < j < |prs| :: prs[j] == rest[j - 1];
      if prs[0].createdAt >= cfg.windowEnd {
        FilteredEmpty(rest, cfg);
        if CutOffSafe(prs, cfg) {
          forall j | 0 <= j < |rest| ensures !cfg.InWindow(rest[j].createdAt) {
            assert rest[j] == prs[j + 1];
          }
        }
        if forall j | 0 <= j < |rest| :: !cfg.InWindow(rest[j].createdAt) {
          forall j | 0 < j < |prs| ensures !cfg.InWindow(prs[j].createdAt) {
            assert prs[j] == rest[j - 1];
          }
        }
      } else {
        CutOffIsExactIffSafe(rest, cfg);
        CutOffSafeTail(prs, cfg);
        var head := if prs[0].createdAt < cfg.windowStart then [] else [prs[0]];
        assert (head + Traversed(rest, cfg))[|head|..] == Traversed(rest, cfg);
        assert (head + Filtered(rest, cfg))[|head|..] == Filtered(rest, cfg);
      }
    }
  }

  lemma CutOffSafeTail(prs: seq<PullRequestNode>, cfg: Config)
    requires prs != [] && prs[0].createdAt < cfg.windowEnd
    ensures CutOffSafe(prs, cfg) <==> CutOffSafe(prs[1..], cfg)
  {
    var rest := prs[1..];
    if CutOffSafe(prs, cfg) {
      forall i, j | 0 <= i < j < |rest| && rest[i].createdAt >= cfg.windowEnd ensures !cfg.InWindow(rest[j].createdAt) {
        assert rest[i] == prs[i + 1] && rest[j] == prs[j + 1];
      }
    }
    if CutOffSafe(rest, cfg) {
      forall i, j | 0 <= i < j < |prs| && prs[i].createdAt >= cfg.windowEnd ensures !cfg.InWindow(prs[j].createdAt) {
        assert prs[i] == rest[i - 1] && prs[j] == rest[j - 1];
      }
    }
  }

  lemma {:induction false} TraversedHas(prs: seq<PullRequestNode>, cfg: Config, node: PullRequestNode)
    ensures node in Traversed(prs, cfg) <==>
            exists i :: 0 <= i < Cut(prs, cfg) && cfg.InWindow(prs[i].createdAt) && prs[i] == node
  {
    if prs != [] && prs[0].createdAt < cfg.windowEnd {
      var rest := prs[1..];
      TraversedHas(rest, cfg, node);
      assert forall i | 0 < i < |prs| :: prs[i] == rest[i - 1];
      forall j | 0 <= j < Cut(rest, cfg) && cfg.InWindow(rest[j].createdAt) && rest[j] == node
        ensures exists i :: 0 <= i < Cut(prs, cfg) && cfg.InWindow(prs[i].createdAt) && prs[i] == node
      {
        assert prs[j + 1] == node;
      }
    }
  }

  lemma {:induction false} FilteredHas(prs: seq<PullRequestNode>, cfg: Config, node: PullRequestNode)
    ensures node in Filtered(prs, cfg) <==> exists i :: 0 <= i < |prs| && cfg.InWindow(prs[i].createdAt) && prs[i] == node
  {
    if prs != [] {
      FilteredHas(prs[1..], cfg, node);
      assert forall i | 0 < i < |prs| :: prs[i] == prs[1..][i - 1];
      forall j | 0 <= j < |prs| - 1 && cfg.InWindow(prs[1..][j].createdAt) && prs[1..][j] == node
        ensures exists i :: 0 <= i < |prs| && cfg.InWindow(prs[i].createdAt) && prs[i] == node
      {
        assert prs[j + 1] == node;
      }
    }
  }
}
