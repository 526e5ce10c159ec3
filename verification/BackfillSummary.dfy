/** What a returned summary says about the difference between two moments of the store. */
module BackfillSummary {
  import opened Wrappers
  import opened RawEvents
  import opened BackfillStorage
  import opened BackfillProgress

  datatype Summary = Summary(pagesPersisted: nat, recordsInserted: nat, duplicatesAbsorbed: nat)
  {
    function Plus(other: Summary): Summary {
      Summary(pagesPersisted + other.pagesPersisted, recordsInserted + other.recordsInserted,
              duplicatesAbsorbed + other.duplicatesAbsorbed)
    }
  }

  const NOTHING := Summary(0, 0, 0)

  function OfOutcome(outcome: PageWriteOutcome): Summary { Summary(1, outcome.inserted, outcome.duplicates) }

  /** A store together with how many records callers have handed over so far. */
  datatype Ledger = Ledger(store: Store, submitted: nat)

  /** The summary is exactly the difference between two moments. */
  ghost predicate Accounts(before: Ledger, after: Ledger, summary: Summary) {
    && TotalPages(after.store) == TotalPages(before.store) + summary.pagesPersisted
    && |BackfillKeys(after.store.raw)| == |BackfillKeys(before.store.raw)| + summary.recordsInserted
    && TotalInserted(after.store) == TotalInserted(before.store) + summary.recordsInserted
    && after.submitted == before.submitted + summary.recordsInserted + summary.duplicatesAbsorbed
  }

  lemma PageAccounts(s: Store, submitted: nat, key: RunKey, records: seq<BackfillRecord>, next: Option<Cursor>)
    ensures InsertedCount(s.raw, records) <= |records|
    ensures Accounts(Ledger(s, submitted), Ledger(Persisted(s, key, records, next), submitted + |records|),
                     Summary(1, InsertedCount(s.raw, records), |records| - InsertedCount(s.raw, records)))
  {
    PersistTotals(s, key, records, next);
    CountIsGrowth(s.raw, records);
  }

  lemma NothingAccounts(a: Ledger)
    ensures Accounts(a, a, NOTHING)
  {
  }

  lemma AccountsPlus(a: Ledger, b: Ledger, c: Ledger, first: Summary, second: Summary)
    requires Accounts(a, b, first) && Accounts(b, c, second)
    ensures Accounts(a, c, first.Plus(second))
  {
  }

  /** An invocation that raised: some summary of partial work still accounts for the difference. */
  ghost predicate PartiallyAccounts(before: Ledger, after: Ledger) {
    exists partial :: Accounts(before, after, partial)
  }

  lemma AccountsPartially(a: Ledger, b: Ledger, summary: Summary)
    requires Accounts(a, b, summary)
    ensures PartiallyAccounts(a, b)
  {
  }

  lemma PartialPlus(a: Ledger, b: Ledger, c: Ledger, first: Summary)
    requires Accounts(a, b, first) && PartiallyAccounts(b, c)
    ensures PartiallyAccounts(a, c)
  {
    var partial :| Accounts(b, c, partial);
    AccountsPlus(a, b, c, first, partial);
  }

  lemma PartialsCompose(a: Ledger, b: Ledger, c: Ledger)
    requires PartiallyAccounts(a, b) && PartiallyAccounts(b, c)
    ensures PartiallyAccounts(a, c)
  {
    var first :| Accounts(a, b, first);
    PartialPlus(a, b, c, first);
  }

  lemma ArrivalsAccount(start: Ledger, s: Store, t: Store, submitted: nat, summary: Summary)
    requires Accounts(start, Ledger(s, submitted), summary) && Arrived(s, t)
    ensures Accounts(start, Ledger(t, submitted), summary)
  {
    ArrivedKeepsCount(s, t);
  }

  /** Another process's transaction is accounted for like one's own. */
  lemma WriteAccounts(s: Store, submitted: nat, w: Write)
    ensures PartiallyAccounts(Ledger(s, submitted),
                              Ledger(AfterWrite(s, w), submitted + if w.PageWrite? then |w.records| else 0))
  {
    var t := AfterWrite(s, w);
    match w
    case PageWrite(key, records, next) =>
      PageAccounts(s, submitted, key, records, next);
      AccountsPartially(Ledger(s, submitted), Ledger(t, submitted + |records|),
                        Summary(1, InsertedCount(s.raw, records), |records| - InsertedCount(s.raw, records)));
    case WebhookWrite(arrival) =>
      LandKeeps(s.raw, [arrival]);
      NothingAccounts(Ledger(s, submitted));
      ArrivalsAccount(Ledger(s, submitted), s, t, submitted, NOTHING);
      AccountsPartially(Ledger(s, submitted), Ledger(t, submitted), NOTHING);
  }

  /**
   * Persist one page and add its outcome to the summary so far, which accounts for everything
   * since the start.  Webhook rows may land before the commit, and only a lost connection stops it.
   */
  method CommitPage(storage: PostgresBackfillStorage, key: RunKey, records: seq<BackfillRecord>, next: Option<Cursor>,
                    completed: bool, summary: Summary, ghost start: Ledger)
    returns (r: Result<Summary, PersistError>, ghost before: Store)
    requires completed <==> next.None?
    requires forall x | x in records :: x.repositoryId == key.repositoryId
    requires Accounts(start, Ledger(storage.View(), storage.submitted), summary)
    requires !IsCompleted(storage.View(), key)
    modifies storage
    ensures Arrived(old(storage.View()), before)
    ensures storage.View() == if r.Success? then Persisted(before, key, records, next) else before
    ensures Later(old(storage.View()), storage.View())
    ensures forall k | k != key :: Lookup(storage.checkpoints, k) == Lookup(old(storage.checkpoints), k)
    ensures r.Success? <==> old(storage.lifetime) != Some(0)
    ensures storage.lifetime.None? <==> old(storage.lifetime).None?
    ensures r.Success? ==> Accounts(start, Ledger(storage.View(), storage.submitted), r.value)
    ensures PartiallyAccounts(start, Ledger(storage.View(), storage.submitted))
  {
    hide Accounts, PartiallyAccounts, InsertAll, InsertedCount, Later, Arrived;
    ghost var entry := storage.View();
    storage.Elapse();
    before := storage.View();
    ArrivedIsLater(entry, before);
    ArrivalsAccount(start, entry, before, storage.submitted, summary);
    PageAccounts(before, storage.submitted, key, records, next);
    AccountsPartially(start, Ledger(before, storage.submitted), summary);
    ghost var ledger := Ledger(before, storage.submitted);
    ArrivedSameCheckpoints(entry, before);
    var outcome := storage.PersistPage(key, records, next, completed);
    if outcome.Failure? {
      return Failure(outcome.error), before;
    }
    PersistIsLater(before, key, records, next);
    LaterIsTransitive(entry, before, storage.View());
    AccountsPlus(start, ledger, Ledger(storage.View(), storage.submitted), summary, OfOutcome(outcome.value));
    var total := summary.Plus(OfOutcome(outcome.value));
    AccountsPartially(start, Ledger(storage.View(), storage.submitted), total);
    return Success(total), before;
  }

  lemma ArrivedSameCheckpoints(s: Store, t: Store)
    requires Arrived(s, t)
    ensures t.checkpoints == s.checkpoints
    ensures forall k :: IsCompleted(t, k) <==> IsCompleted(s, k)
  {
  }
}
