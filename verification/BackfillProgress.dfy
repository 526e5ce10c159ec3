/** What checkpoints may claim, and what later moments keep: shared by both backfill adapters. */
module BackfillProgress {
  import opened Wrappers
  import opened RawEvents
  import opened BackfillStorage

  ghost predicate Covered(raw: RawTable, records: seq<BackfillRecord>) {
    forall r | r in records :: r.Key() in raw
  }

  ghost predicate IsCompleted(s: Store, key: RunKey) {
    key in s.checkpoints && s.checkpoints[key].status.Completed?
  }

  lemma LoadedCompleted(s: Store, key: RunKey, c: Option<Checkpoint>)
    requires c == Lookup(s.checkpoints, key)
    ensures IsCompleted(s, key) <==> c.Some? && c.value.status == Completed
  {
  }

  /**
   * Every backfilled row was there at the start or is an expected record's; the rows of the start
   * are untouched.  Webhook rows may have landed meanwhile.
   */
  ghost predicate NoExtras(expected: iset<BackfillRecord>, base: RawTable, raw: RawTable) {
    && Grows(base, raw)
    && forall k | k in raw && k !in base && k.source.Backfill? ::
         exists r :: r in expected && r.Key() == k && r.Row() == raw[k]
  }

  lemma PersistHasNoExtras(expected: iset<BackfillRecord>, base: RawTable, raw: RawTable, records: seq<BackfillRecord>)
    requires NoExtras(expected, base, raw)
    requires forall r | r in records :: r in expected
    ensures NoExtras(expected, base, InsertAll(raw, records))
  {
    hide InsertAll;
    InsertAllKeys(raw, records);
  }

  lemma MoreExpected(expected: iset<BackfillRecord>, wider: iset<BackfillRecord>, base: RawTable, raw: RawTable)
    requires NoExtras(expected, base, raw) && expected <= wider
    ensures NoExtras(wider, base, raw)
  {
  }

  lemma ArrivedHasNoExtras(expected: iset<BackfillRecord>, base: RawTable, s: Store, t: Store)
    requires NoExtras(expected, base, s.raw) && Arrived(s, t)
    ensures NoExtras(expected, base, t.raw)
  {
  }

  /** The rows that do not count as this traversal's own once another process has written. */
  ghost function Widened(base: RawTable, before: RawTable, after: RawTable): RawTable {
    base + map k | k in after && k !in before :: after[k]
  }

  lemma WidenedHasNoExtras(expected: iset<BackfillRecord>, base: RawTable, before: RawTable, after: RawTable)
    requires NoExtras(expected, base, before) && Grows(before, after)
    ensures NoExtras(expected, Widened(base, before, after), after)
    ensures Grows(base, Widened(base, before, after))
  {
  }

  /** The row is one that this transaction offers under this key. */
  ghost predicate Wrote(w: Write, k: RawKey, row: RawRow) {
    match w
    case PageWrite(_, records, _) => exists r | r in records :: r.Key() == k && r.Row() == row
    case WebhookWrite(a) => k == WebhookKey(a.envelope) && row == WebhookRow(a.envelope, a.partition, a.offset)
  }

  lemma WriteGrows(s: Store, w: Write)
    ensures Grows(s.raw, AfterWrite(s, w).raw)
    ensures forall k | k in AfterWrite(s, w).raw && k !in s.raw :: Wrote(w, k, AfterWrite(s, w).raw[k])
    ensures forall k :: w.WebhookWrite? || k != w.key ==> Lookup(AfterWrite(s, w).checkpoints, k) == Lookup(s.checkpoints, k)
  {
    match w
    case PageWrite(key, records, next) => InsertAllKeys(s.raw, records);
    case WebhookWrite(arrival) =>
      LandKeeps(s.raw, [arrival]);
      assert Land(s.raw, [arrival]) ==
             InsertOrIgnore(s.raw, WebhookKey(arrival.envelope), WebhookRow(arrival.envelope, arrival.partition, arrival.offset));
  }

  /** Rows are append-only and completed checkpoints are never taken back. */
  ghost predicate Later(s: Store, t: Store) {
    && Grows(s.raw, t.raw)
    && forall k :: IsCompleted(s, k) ==> IsCompleted(t, k)
  }

  lemma LaterIsReflexive(s: Store)
    ensures Later(s, s)
  {
  }

  lemma LaterIsTransitive(s: Store, t: Store, u: Store)
    requires Later(s, t) && Later(t, u)
    ensures Later(s, u)
  {
  }

  lemma LaterKeepsCompleted(s: Store, t: Store, key: RunKey)
    requires Later(s, t)
    ensures IsCompleted(s, key) ==> IsCompleted(t, key)
  {
  }

  lemma ArrivedIsLater(s: Store, t: Store)
    requires Arrived(s, t)
    ensures Later(s, t)
  {
  }

  lemma ArrivedIsLookup(s: Store, t: Store, key: RunKey)
    requires Arrived(s, t)
    ensures Lookup(s.checkpoints, key) == Lookup(t.checkpoints, key)
  {
  }

  lemma PersistIsLater(s: Store, key: RunKey, records: seq<BackfillRecord>, next: Option<Cursor>)
    requires !IsCompleted(s, key)
    ensures Later(s, Persisted(s, key, records, next))
  {
    hide InsertAll;
    InsertAllKeys(s.raw, records);
  }
}
