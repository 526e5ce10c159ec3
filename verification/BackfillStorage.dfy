/** Transactional page writes: raw inserts and checkpoint advancement commit together. */
module BackfillStorage {
  import opened Wrappers
  import opened RawEvents

  /** A GraphQL end cursor is opaque to the program; a REST cursor is the next page number as text. */
  datatype Cursor = EndCursor(position: nat) | PageNumber(page: int)

  datatype Resource =
    | PullRequests | PullRequestReviews | PullRequestCommits | WorkflowRuns | Deployments | DeploymentStatuses

  datatype Scope = RepositoryScope | PullRequestScope(nodeId: string) | DeploymentScope(deploymentId: int)

  datatype RunKey = RunKey(repositoryId: int, resource: Resource, scope: Scope, windowStart: int, windowEnd: int)

  datatype CheckpointStatus = InProgress | Completed

  datatype Checkpoint = Checkpoint(
    cursor: Option<Cursor>, status: CheckpointStatus, pagesCompleted: nat, recordsInserted: nat)

  datatype PageWriteOutcome = PageWriteOutcome(inserted: nat, duplicates: nat, checkpoint: Checkpoint)

  datatype PersistError = CompletedWithCursor | MissingNextCursor | RepositoryMismatch | ConnectionLost

  type Checkpoints = map<RunKey, Checkpoint>

  datatype Store = Store(raw: RawTable, checkpoints: Checkpoints)

  function BackfillKeys(raw: RawTable): set<RawKey> { set k | k in raw && k.source.Backfill? }

  /** The checkpoint row after one more page: counters accumulate, cursor and status are replaced. */
  function Advanced(checkpoints: Checkpoints, key: RunKey, next: Option<Cursor>, inserted: nat): Checkpoint {
    var status := if next.None? then Completed else InProgress;
    if key in checkpoints
    then Checkpoint(next, status, checkpoints[key].pagesCompleted + 1, checkpoints[key].recordsInserted + inserted)
    else Checkpoint(next, status, 1, inserted)
  }

  function InsertedCount(raw: RawTable, records: seq<BackfillRecord>): nat
  {
    if records == [] then 0
    else
      var rest, last := records[..|records| - 1], records[|records| - 1];
      InsertedCount(raw, rest) + if last.Key() in InsertAll(raw, rest) then 0 else 1
  }

  /** One committed page; a cursor is present exactly when the traversal is not complete. */
  function Persisted(s: Store, key: RunKey, records: seq<BackfillRecord>, next: Option<Cursor>): Store {
    Store(InsertAll(s.raw, records),
          s.checkpoints[key := Advanced(s.checkpoints, key, next, InsertedCount(s.raw, records))])
  }

  /** The rows a page adds to the table are those it counts as inserted. */
  lemma {:induction false} CountIsGrowth(raw: RawTable, records: seq<BackfillRecord>)
    ensures |BackfillKeys(InsertAll(raw, records))| == |BackfillKeys(raw)| + InsertedCount(raw, records)
    ensures InsertedCount(raw, records) <= |records|
  {
    if records != [] {
      var rest, last := records[..|records| - 1], records[|records| - 1];
      CountIsGrowth(raw, rest);
      var before := InsertAll(raw, rest);
      var after := InsertOrIgnore(before, last.Key(), last.Row());
      assert InsertAll(raw, records) == after;
      assert BackfillKeys(after) == BackfillKeys(before) + {last.Key()};
    }
  }

  lemma NoneYet(raw: RawTable, records: seq<BackfillRecord>)
    ensures InsertAll(raw, records[..0]) == raw && InsertedCount(raw, records[..0]) == 0
  {
  }

  lemma OneMore(raw: RawTable, records: seq<BackfillRecord>, i: nat)
    requires i < |records|
    ensures var before, key := InsertAll(raw, records[..i]), records[i].Key();
            && InsertAll(raw, records[..i + 1]) == InsertOrIgnore(before, key, records[i].Row())
            && InsertedCount(raw, records[..i + 1]) == InsertedCount(raw, records[..i]) + if key in before then 0 else 1
  {
    assert records[..i + 1][..i] == records[..i];
  }

  /** Between two moments nothing but webhook rows was added. */
  ghost predicate Arrived(s: Store, t: Store) {
    && t.checkpoints == s.checkpoints
    && Grows(s.raw, t.raw)
    && forall k | k in t.raw && k !in s.raw :: k.source.Webhook?
  }

  lemma ArrivedKeepsCount(s: Store, t: Store)
    requires Arrived(s, t)
    ensures BackfillKeys(t.raw) == BackfillKeys(s.raw)
  {
  }

  // ---------------------------------------------------------------- totals over all run keys

  ghost function Total(m: Checkpoints, f: Checkpoint -> nat): nat
    decreases |m|
  {
    if m == map[] then 0
    else
      var k :| k in m;
      assert (m - {k}).Keys == m.Keys - {k};
      f(m[k]) + Total(m - {k}, f)
  }

  lemma {:induction false} TotalWithout(m: Checkpoints, k: RunKey, f: Checkpoint -> nat)
    requires k in m
    ensures Total(m, f) == f(m[k]) + Total(m - {k}, f)
    decreases |m|
  {
    var j :| j in m && Total(m, f) == f(m[j]) + Total(m - {j}, f);
    if j != k {
      assert (m - {j}).Keys == m.Keys - {j};
      TotalWithout(m - {j}, k, f);
      assert (m - {k}).Keys == m.Keys - {k};
      TotalWithout(m - {k}, j, f);
      assert m - {j} - {k} == m - {k} - {j};
    }
  }

  lemma TotalUpdate(m: Checkpoints, k: RunKey, c: Checkpoint, f: Checkpoint -> nat)
    ensures Total(m[k := c], f) == f(c) + Total(m, f) - (if k in m then f(m[k]) else 0)
  {
    TotalWithout(m[k := c], k, f);
    assert m[k := c] - {k} == m - {k};
    if k in m {
      TotalWithout(m, k, f);
    } else {
      assert m - {k} == m;
    }
  }

  ghost function TotalPages(s: Store): nat { Total(s.checkpoints, (c: Checkpoint) => c.pagesCompleted) }

  ghost function TotalInserted(s: Store): nat { Total(s.checkpoints, (c: Checkpoint) => c.recordsInserted) }

  /** Across all run keys the counters add up to the backfilled rows. */
  ghost predicate Conserved(s: Store) { TotalInserted(s) == |BackfillKeys(s.raw)| }

  lemma PersistTotals(s: Store, key: RunKey, records: seq<BackfillRecord>, next: Option<Cursor>)
    ensures TotalPages(Persisted(s, key, records, next)) == TotalPages(s) + 1
    ensures TotalInserted(Persisted(s, key, records, next)) == TotalInserted(s) + InsertedCount(s.raw, records)
  {
    var c := Advanced(s.checkpoints, key, next, InsertedCount(s.raw, records));
    TotalUpdate(s.checkpoints, key, c, (c: Checkpoint) => c.pagesCompleted);
    TotalUpdate(s.checkpoints, key, c, (c: Checkpoint) => c.recordsInserted);
  }

  /** Whatever writes happen, page by page and delivery by delivery, in any order. */
  datatype Write = PageWrite(key: RunKey, records: seq<BackfillRecord>, next: Option<Cursor>)
                 | WebhookWrite(arrival: Arrival)

  function AfterWrite(s: Store, w: Write): Store {
    match w
    case PageWrite(key, records, next) => Persisted(s, key, records, next)
    case WebhookWrite(arrival) => s.(raw := Land(s.raw, [arrival]))
  }

  function AfterWrites(writes: seq<Write>): Store {
    if writes == [] then Store(map[], map[])
    else AfterWrite(AfterWrites(writes[..|writes| - 1]), writes[|writes| - 1])
  }

  /** Conservation over every history of committed pages of every run, interleaved with webhooks. */
  lemma {:induction false} CountersAreConserved(writes: seq<Write>)
    ensures Conserved(AfterWrites(writes))
  {
    if writes != [] {
      var s, w := AfterWrites(writes[..|writes| - 1]), writes[|writes| - 1];
      CountersAreConserved(writes[..|writes| - 1]);
      match w
      case PageWrite(key, records, next) =>
        PersistTotals(s, key, records, next);
        CountIsGrowth(s.raw, records);
      case WebhookWrite(arrival) =>
        LandKeeps(s.raw, [arrival]);
        assert BackfillKeys(AfterWrite(s, w).raw) == BackfillKeys(s.raw);
    }
  }

  // ---------------------------------------------------------------- the storage class

  class PostgresBackfillStorage {
    var raw: RawTable
    var checkpoints: Checkpoints
    /** How many more transactions commit before the connection is lost; none means that it never is. */
    var lifetime: Option<nat>
    /** What the warehouse writer lands in the same table before each of the next transactions. */
    var arrivals: seq<seq<Arrival>>
    /** How many records callers have handed over in committed pages. */
    ghost var submitted: nat

    constructor (initial: Store)
      ensures View() == initial && submitted == 0 && lifetime == None && arrivals == []
    {
      raw, checkpoints, lifetime, arrivals, submitted := initial.raw, initial.checkpoints, None, [], 0;
    }

    /** A new process opens a new connection, which may again be lost before any of its commits. */
    method Reconnect(lifetime: Option<nat>, arrivals: seq<seq<Arrival>>)
      modifies this`lifetime, this`arrivals
      ensures this.lifetime == lifetime && this.arrivals == arrivals
    {
      this.lifetime, this.arrivals := lifetime, arrivals;
    }

    /** Time passes, and with it webhook rows may land; nothing else changes. */
    method Elapse()
      modifies this`raw, this`arrivals
      ensures raw == if old(arrivals) == [] then old(raw) else Land(old(raw), old(arrivals)[0])
      ensures Arrived(old(View()), View())
    {
      if arrivals != [] {
        LandKeeps(raw, arrivals[0]);
        raw, arrivals := Land(raw, arrivals[0]), arrivals[1..];
      }
    }

    /** One transaction of another process: a page of some other traversal, or a webhook row. */
    method OtherWriter(w: Write)
      modifies this`raw, this`checkpoints, this`submitted
      ensures View() == AfterWrite(old(View()), w)
      ensures submitted == old(submitted) + if w.PageWrite? then |w.records| else 0
    {
      match w {
        case PageWrite(key, records, next) =>
          var inserted := InsertedCount(raw, records);
          checkpoints := checkpoints[key := Advanced(checkpoints, key, next, inserted)];
          raw := InsertAll(raw, records);
          submitted := submitted + |records|;
        case WebhookWrite(arrival) =>
          raw := Land(raw, [arrival]);
      }
    }

    ghost function View(): Store
      reads this
    {
      Store(raw, checkpoints)
    }

    method LoadCheckpoint(key: RunKey) returns (c: Option<Checkpoint>)
      ensures c == Lookup(checkpoints, key)
    {
      return if key in checkpoints then Some(checkpoints[key]) else None;
    }

    /** One transaction: either the whole page and its checkpoint are stored, or the call raises and nothing is. */
    method PersistPage(key: RunKey, records: seq<BackfillRecord>, nextCursor: Option<Cursor>, completed: bool)
      returns (r: Result<PageWriteOutcome, PersistError>)
      modifies this
      ensures r.Success? <==>
                && (completed <==> nextCursor.None?)
                && (forall x | x in records :: x.repositoryId == key.repositoryId)
                && old(lifetime) != Some(0)
      ensures lifetime.None? <==> old(lifetime).None?
      ensures r.Success? ==>
                && View() == Persisted(old(View()), key, records, nextCursor)
                && submitted == old(submitted) + |records|
                && r.value.inserted == InsertedCount(old(raw), records)
                && r.value.inserted + r.value.duplicates == |records|
                && r.value.checkpoint == checkpoints[key]
      ensures r.Failure? ==> View() == old(View()) && submitted == old(submitted)
      ensures r.Failure? ==> r.error == if completed && nextCursor.Some? then CompletedWithCursor
                                        else if !completed && nextCursor.None? then MissingNextCursor
                                        else if exists x | x in records :: x.repositoryId != key.repositoryId then RepositoryMismatch
                                        else ConnectionLost
    {
      hide InsertAll, InsertedCount;
      if completed && nextCursor != None {
        return Failure(CompletedWithCursor);
      }
      if !completed && nextCursor == None {
        return Failure(MissingNextCursor);
      }
      if exists x | x in records :: x.repositoryId != key.repositoryId {
        return Failure(RepositoryMismatch);
      }
      if lifetime == Some(0) {
        return Failure(ConnectionLost);
      }
      var inserted: nat := 0;
      NoneYet(raw, records);
      for i := 0 to |records|
        invariant raw == InsertAll(old(raw), records[..i])
        invariant inserted == InsertedCount(old(raw), records[..i]) <= i
        invariant checkpoints == old(checkpoints) && submitted == old(submitted) && lifetime == old(lifetime)
        invariant arrivals == old(arrivals)
      {
        OneMore(old(raw), records, i);
        var record := records[i];
        if record.Key() !in raw {
          raw := raw[record.Key() := record.Row()];
          inserted := inserted + 1;
        }
      }
      assert records[..|records|] == records;
      var row := if key in checkpoints
                 then Checkpoint(nextCursor, if completed then Completed else InProgress,
                                 checkpoints[key].pagesCompleted + 1, checkpoints[key].recordsInserted + inserted)
                 else Checkpoint(nextCursor, if completed then Completed else InProgress, 1, inserted);
      checkpoints := checkpoints[key := row];
      submitted := submitted + |records|;
      lifetime := if lifetime.Some? then Some(lifetime.value - 1) else None;
      return Success(PageWriteOutcome(inserted, |records| - inserted, row));
    }
  }
}
