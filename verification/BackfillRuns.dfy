/** What the two backfill adapters share: the window, the supply of answers, and the events of a whole history of starts. */
module BackfillRuns {
  import opened Wrappers
  import opened RawEvents
  import opened BackfillStorage
  import opened BackfillProgress

  /** The half-open creation window and the identities that every record and key carries. */
  datatype Config = Config(repositoryId: int, installationId: int, windowStart: int, windowEnd: int)
  {
    predicate InWindow(createdAt: int) { windowStart <= createdAt < windowEnd }
  }

  // ---------------------------------------------------------------- answers

  /** What is left of a number of answers after one more request. */
  function Spent(left: Option<nat>): Option<nat> {
    match left case Some(n) => Some(if n == 0 then 0 else n - 1) case None => None
  }

  /** An unlimited number of answers stays unlimited, and a limited one only runs down. */
  ghost predicate Drawn(before: Option<nat>, after: Option<nat>) {
    && (before.None? <==> after.None?)
    && (before.Some? ==> after.value <= before.value)
  }

  // ---------------------------------------------------------------- starts and other writers

  /** One process start: answers and commits may run out, and webhook rows land meanwhile. */
  datatype Attempt<S> = Attempt(script: S, answers: Option<nat>, lifetime: Option<nat>, arrivals: seq<seq<Arrival>>, pageSize: nat)
  {
    predicate Lasting() { answers.None? && lifetime.None? }
  }

  datatype Event<S> = Begin(attempt: Attempt<S>) | Other(write: Write)

  const GRAPHQL_RESOURCES := {PullRequests, PullRequestReviews, PullRequestCommits}

  const REST_RESOURCES := {WorkflowRuns, Deployments, DeploymentStatuses}

  /** A run key of this window and repository, for one adapter's resources. */
  predicate OwnKey(cfg: Config, resources: set<Resource>, k: RunKey) {
    && k.resource in resources
    && (k.repositoryId, k.windowStart, k.windowEnd) == (cfg.repositoryId, cfg.windowStart, cfg.windowEnd)
  }

  /** A webhook row, or a page of some other traversal. */
  predicate Foreign(cfg: Config, resources: set<Resource>, w: Write) {
    w.PageWrite? ==> !OwnKey(cfg, resources, w.key)
  }

  predicate Admissible<S>(cfg: Config, resources: set<Resource>, e: Event<S>) {
    match e
    case Begin(a) => 1 <= a.pageSize
    case Other(w) => Foreign(cfg, resources, w)
  }

  // ---------------------------------------------------------------- rows that others wrote first

  /** The base grew by rows of other writers, and by nothing else. */
  ghost predicate GivenBy<S>(base: RawTable, widened: RawTable, events: seq<Event<S>>) {
    && Grows(base, widened)
    && forall k | k in widened && k !in base :: WrittenByOther(events, k, widened[k])
  }

  ghost predicate WrittenByOther<S>(events: seq<Event<S>>, k: RawKey, row: RawRow) {
    exists e | e in events :: e.Other? && Wrote(e.write, k, row)
  }

  lemma NothingGiven<S>(base: RawTable)
    ensures GivenBy<S>(base, base, [])
  {
  }

  lemma GivenLater<S>(base: RawTable, widened: RawTable, events: seq<Event<S>>, e: Event<S>)
    requires GivenBy(base, widened, events)
    ensures GivenBy(base, widened, events + [e])
  {
    hide Wrote;
    forall k | k in widened && k !in base ensures WrittenByOther(events + [e], k, widened[k]) {
      var w :| w in events && w.Other? && Wrote(w.write, k, widened[k]);
      assert w in events + [e];
    }
  }

  lemma GivenMore<S>(base: RawTable, widened: RawTable, events: seq<Event<S>>, s: Store, w: Write)
    requires GivenBy(base, widened, events) && Grows(widened, s.raw)
    ensures GivenBy(base, Widened(widened, s.raw, AfterWrite(s, w).raw), events + [Event<S>.Other(w)])
  {
    hide Wrote, AfterWrite, WrittenByOther;
    WriteGrows(s, w);
    var e: Event<S> := Event<S>.Other(w);
    var wider := Widened(widened, s.raw, AfterWrite(s, w).raw);
    GivenLater(base, widened, events, e);
    forall k | k in wider && k !in base ensures WrittenByOther(events + [e], k, wider[k]) {
      if k !in widened {
        OtherWrote(events, w, k, wider[k]);
      }
    }
  }

  lemma OtherWrote<S>(events: seq<Event<S>>, w: Write, k: RawKey, row: RawRow)
    requires Wrote(w, k, row)
    ensures WrittenByOther(events + [Event<S>.Other(w)], k, row)
  {
    assert Event<S>.Other(w) in events + [Event<S>.Other(w)];
  }

  /** Without other writers the base stays what it was. */
  lemma AloneIsGivenNothing<S>(base: RawTable, widened: RawTable, events: seq<Event<S>>)
    requires GivenBy(base, widened, events) && forall e | e in events :: e.Begin?
    ensures widened == base
  {
  }

  /** The columns of a backfilled row; those of a webhook delivery are empty. */
  ghost predicate HasColumns(row: RawRow, cfg: Config, eventName: string, action: string, occurredAt: int, json: string,
                             parent: Option<Parent>)
  {
    && row.eventName == eventName
    && row.action == action
    && row.repositoryId == cfg.repositoryId
    && row.installationId == cfg.installationId
    && row.occurredAt == Some(occurredAt)
    && row.payload.json == json
    && row.payload.parent == parent
    && row.deliveryId == None && row.receivedAt == None && row.lineage == None
  }
}
